/** Shared vocabulary: the JavaScript values and string operations the rest of the
    model is written in.  JavaScript strings are modelled as `string` (sequences of
    UTF-16 code units are approximated by `char`); a JavaScript value that may be
    `undefined`, `null` or `""` and is only ever used through `x || fallback` is
    modelled as a `string` whose empty value stands for all three. */
module Js {

  datatype Option<+T> = None | Some(value: T) {
    function GetOr(default: T): T {
      match this
      case Some(v) => v
      case None => default
    }
  }

  /** The outcome of an `async` JavaScript function: a resolved value or a rejection
      carrying the `message` of the thrown `Error`. */
  datatype Result<+T> = Ok(value: T) | Err(message: string)

  /** An octet of an `ArrayBuffer` / `Uint8Array`. */
  newtype byte = x: int | 0 <= x < 0x100

  /** A `Blob`: its `type` and its bytes. */
  datatype Blob = Blob(mimeType: string, bytes: seq<byte>)

  /** `a || b` on strings: the empty string is the only falsy string. */
  function Or(a: string, b: string): (r: string)
    ensures a != "" ==> r == a
    ensures a == "" ==> r == b
  {
    if a != "" then a else b
  }

  // ---------------------------------------------------------------------------
  // Occurrences and searching

  /** `sub` occurs in `s` starting at index `i`. */
  predicate OccursAt(s: string, sub: string, i: nat) {
    i + |sub| <= |s| && s[i..i + |sub|] == sub
  }

  /** The first index `>= from` at which `sub` occurs in `s`, if any
      (`String.prototype.indexOf(sub, from)`). */
  function IndexOfFrom(s: string, sub: string, from: nat): (r: Option<nat>)
    decreases |s| - from
    ensures r.Some? ==> from <= r.value && OccursAt(s, sub, r.value)
    ensures r.Some? ==> forall j :: from <= j < r.value ==> !OccursAt(s, sub, j)
    ensures r.None? ==> forall j :: from <= j ==> !OccursAt(s, sub, j)
  {
    if from + |sub| > |s| then None
    else if s[from..from + |sub|] == sub then Some(from)
    else IndexOfFrom(s, sub, from + 1)
  }

  /** `s.includes(sub)`. */
  predicate Includes(s: string, sub: string) {
    IndexOfFrom(s, sub, 0).Some?
  }

  lemma IncludesIff(s: string, sub: string)
    ensures Includes(s, sub) <==> exists i :: OccursAt(s, sub, i)
  {
    var r := IndexOfFrom(s, sub, 0);
    if r.Some? {
      assert OccursAt(s, sub, r.value);
    }
  }

  /** An occurrence inside a prefix is an occurrence in the whole string. */
  lemma IncludesPrefix(s: string, t: string, sub: string)
    requires Includes(s, sub)
    ensures Includes(s + t, sub)
  {
    var i := IndexOfFrom(s, sub, 0).value;
    assert (s + t)[i..i + |sub|] == s[i..i + |sub|];
    assert OccursAt(s + t, sub, i);
    IncludesIff(s + t, sub);
  }

  /** An occurrence inside a suffix is an occurrence in the whole string. */
  lemma IncludesSuffix(s: string, t: string, sub: string)
    requires Includes(t, sub)
    ensures Includes(s + t, sub)
  {
    var i := IndexOfFrom(t, sub, 0).value;
    assert (s + t)[|s| + i..|s| + i + |sub|] == t[i..i + |sub|];
    assert OccursAt(s + t, sub, |s| + i);
    IncludesIff(s + t, sub);
  }

  /** A string occurs in any string built around it. */
  lemma IncludesMiddle(s: string, sub: string, t: string)
    ensures Includes(s + sub + t, sub)
  {
    assert (s + sub + t)[|s|..|s| + |sub|] == sub;
    assert OccursAt(s + sub + t, sub, |s|);
    IncludesIff(s + sub + t, sub);
  }

  /** `s.startsWith(p)`. */
  predicate StartsWith(s: string, p: string) {
    |p| <= |s| && s[..|p|] == p
  }

  // ---------------------------------------------------------------------------
  // `String.prototype.split` with a non-empty string separator

  /** `s.split(sep)`: the pieces between the non-overlapping occurrences of `sep`
      found left to right; k occurrences give k + 1 pieces. */
  function Split(s: string, sep: string): (r: seq<string>)
    requires sep != ""
    decreases |s|
    ensures |r| >= 1
  {
    match IndexOfFrom(s, sep, 0)
    case None => [s]
    case Some(i) => [s[..i]] + Split(s[i + |sep|..], sep)
  }

  /** `pieces.join(sep)`. */
  function Join(pieces: seq<string>, sep: string): string {
    if |pieces| == 0 then ""
    else if |pieces| == 1 then pieces[0]
    else pieces[0] + sep + Join(pieces[1..], sep)
  }

  /** No occurrence of `sep` starts inside `p` in the string `p + sep + rest`:
      `p` does not contain `sep` and does not end in a proper prefix of it. */
  predicate CleanBefore(p: string, sep: string) {
    forall j :: 0 <= j < |p| ==> !OccursAt(p + sep, sep, j)
  }

  /** The first occurrence of `sep` in `p + sep + rest` is the one right after `p`. */
  lemma {:induction false} SplitCons(p: string, sep: string, rest: string)
    requires sep != "" && CleanBefore(p, sep)
    ensures Split(p + sep + rest, sep) == [p] + Split(rest, sep)
  {
    var s := p + sep + rest;
    forall j | 0 <= j < |p|
      ensures !OccursAt(s, sep, j)
    {
      assert !OccursAt(p + sep, sep, j);
      assert s[j..j + |sep|] == (p + sep)[j..j + |sep|];
    }
    assert s[|p|..|p| + |sep|] == sep;
    assert OccursAt(s, sep, |p|);
    var r := IndexOfFrom(s, sep, 0);
    assert r == Some(|p|);
    assert s[..|p|] == p;
    assert s[|p| + |sep|..] == rest;
  }

  /** Splitting a join gives the pieces back when no piece contains the separator
      and no piece other than the last ends in a proper prefix of it. */
  lemma {:induction false} SplitJoin(pieces: seq<string>, sep: string)
    requires sep != "" && |pieces| >= 1
    requires forall k :: 0 <= k < |pieces| - 1 ==> CleanBefore(pieces[k], sep)
    requires !Includes(pieces[|pieces| - 1], sep)
    ensures Split(Join(pieces, sep), sep) == pieces
  {
    if |pieces| == 1 {
    } else {
      assert CleanBefore(pieces[0], sep);
      SplitCons(pieces[0], sep, Join(pieces[1..], sep));
      SplitJoin(pieces[1..], sep);
      assert pieces == [pieces[0]] + pieces[1..];
    }
  }

  // ---------------------------------------------------------------------------
  // Whitespace and `String.prototype.trim`

  /** The characters ECMAScript counts as WhiteSpace or LineTerminator; these are
      what `trim` strips and what the regular-expression class `\s` matches. */
  predicate IsSpace(c: char) {
    c == ' ' || c == '\t' || c == '\n' || c == '\r' || c == '\U{000B}' || c == '\U{000C}'
    || c == '\U{00A0}' || c == '\U{1680}' || ('\U{2000}' <= c <= '\U{200A}')
    || c == '\U{2028}' || c == '\U{2029}' || c == '\U{202F}' || c == '\U{205F}'
    || c == '\U{3000}' || c == '\U{FEFF}'
  }

  function TrimStart(s: string): (r: string)
    ensures |r| <= |s| && r == s[|s| - |r|..]
    ensures r != [] ==> !IsSpace(r[0])
    ensures forall k :: 0 <= k < |s| - |r| ==> IsSpace(s[k])
  {
    if s != [] && IsSpace(s[0]) then TrimStart(s[1..]) else s
  }

  function TrimEnd(s: string): (r: string)
    ensures |r| <= |s| && r == s[..|r|]
    ensures r != [] ==> !IsSpace(r[|r| - 1])
    ensures forall k :: |r| <= k < |s| ==> IsSpace(s[k])
  {
    if s != [] && IsSpace(s[|s| - 1]) then TrimEnd(s[..|s| - 1]) else s
  }

  /** `s.trim()`. */
  function Trim(s: string): string {
    TrimEnd(TrimStart(s))
  }

  /** `trim` leaves no whitespace at either end. */
  lemma TrimEnds(s: string)
    ensures var r := Trim(s); r != [] ==> !IsSpace(r[0]) && !IsSpace(r[|r| - 1])
  {
    var t := TrimStart(s);
    var r := TrimEnd(t);
    if r != [] {
      assert r[0] == t[0];
    }
  }

  /** A string whose ends are not whitespace is its own `trim`. */
  lemma TrimNoop(s: string)
    requires s != [] ==> !IsSpace(s[0]) && !IsSpace(s[|s| - 1])
    ensures Trim(s) == s
  {
  }

  /** `trim` is idempotent. */
  lemma TrimIdempotent(s: string)
    ensures Trim(Trim(s)) == Trim(s)
  {
    TrimEnds(s);
    TrimNoop(Trim(s));
  }

  // ---------------------------------------------------------------------------
  // Characters

  predicate IsDigit(c: char) { '0' <= c <= '9' }

  /** ASCII upper-casing, which is the case folding a `/i` regular expression
      applies to an ASCII pattern (non-ASCII characters never fold onto ASCII). */
  function UpperAscii(c: char): char {
    if 'a' <= c <= 'z' then (c as int - 32) as char else c
  }

  /** `id.charAt(0).toUpperCase() + id.slice(1)`, for identifiers in ASCII. */
  function Capitalize(id: string): (r: string)
    ensures |r| == |id|
    ensures id != [] ==> r[0] == UpperAscii(id[0]) && r[1..] == id[1..]
  {
    if id == [] then [] else [UpperAscii(id[0])] + id[1..]
  }

  /** The replacement text `String.prototype.replace` inserts for a match of a
      pattern without capture groups: `$$` is a dollar sign, `$&` the matched
      text, `` $` `` the text before the match and `$'` the text after it; every
      other `$` (a lone one, `$1`, `$<`) stays as it is. */
  function Substitution(value: string, matched: string, pre: string, post: string): string
    decreases |value|
  {
    if value == [] then []
    else if value[0] == '$' && |value| >= 2 && value[1] == '$' then "$" + Substitution(value[2..], matched, pre, post)
    else if value[0] == '$' && |value| >= 2 && value[1] == '&' then matched + Substitution(value[2..], matched, pre, post)
    else if value[0] == '$' && |value| >= 2 && value[1] == '`' then pre + Substitution(value[2..], matched, pre, post)
    else if value[0] == '$' && |value| >= 2 && value[1] == '\'' then post + Substitution(value[2..], matched, pre, post)
    else [value[0]] + Substitution(value[1..], matched, pre, post)
  }

  /** A replacement without a dollar sign is inserted verbatim. */
  lemma {:induction false} SubstitutionPlain(value: string, matched: string, pre: string, post: string)
    requires '$' !in value
    ensures Substitution(value, matched, pre, post) == value
    decreases |value|
  {
    if value != [] {
      assert value[0] != '$';
      assert '$' !in value[1..] by {
        forall k | 0 <= k < |value[1..]| ensures value[1..][k] != '$' {
          assert value[1..][k] == value[k + 1];
        }
      }
      SubstitutionPlain(value[1..], matched, pre, post);
      assert value == [value[0]] + value[1..];
    }
  }

  /** A character other than a dollar sign is kept as it is. */
  lemma SubstitutionPlainHead(ch: char, rest: string, matched: string, pre: string, post: string)
    requires ch != '$'
    ensures Substitution([ch] + rest, matched, pre, post) == [ch] + Substitution(rest, matched, pre, post)
  {
    assert ([ch] + rest)[0] == ch && ([ch] + rest)[1..] == rest;
  }

  /** Text without a dollar sign at the head of a value is kept as it is. */
  lemma {:induction false} SubstitutionPlainPrefix(plain: string, rest: string, matched: string, pre: string, post: string)
    requires '$' !in plain
    ensures Substitution(plain + rest, matched, pre, post) == plain + Substitution(rest, matched, pre, post)
    decreases |plain|
  {
    if plain == [] {
      assert plain + rest == rest;
    } else {
      var tail := plain[1..];
      assert plain == [plain[0]] + tail;
      assert plain + rest == [plain[0]] + (tail + rest);
      assert '$' !in tail by {
        forall k | 0 <= k < |tail| ensures tail[k] != '$' {
          assert tail[k] == plain[k + 1];
        }
      }
      SubstitutionPlainHead(plain[0], tail + rest, matched, pre, post);
      SubstitutionPlainPrefix(tail, rest, matched, pre, post);
    }
  }

  /** A doubled dollar sign between plain texts becomes a single one. */
  lemma DoubledDollar(before: string, after: string, matched: string, pre: string, post: string)
    requires '$' !in before && '$' !in after
    ensures Substitution(before + "$$" + after, matched, pre, post) == before + "$" + after
  {
    var v := "$$" + after;
    assert before + "$$" + after == before + v;
    SubstitutionPlainPrefix(before, v, matched, pre, post);
    assert v[0] == '$' && v[1] == '$' && v[2..] == after;
    SubstitutionPlain(after, matched, pre, post);
    assert Substitution(v, matched, pre, post) == "$" + after;
  }

  /** The four patterns are expanded, and a `$` before any other character is kept. */
  lemma SubstitutionPatterns(matched: string, pre: string, post: string)
    ensures Substitution("$$", matched, pre, post) == "$"
    ensures Substitution("$&", matched, pre, post) == matched
    ensures Substitution("$`", matched, pre, post) == pre
    ensures Substitution("$'", matched, pre, post) == post
    ensures Substitution("$1", matched, pre, post) == "$1"
    ensures Substitution("$", matched, pre, post) == "$"
  {
    assert "$$"[2..] == [];
    assert "$&"[2..] == [];
    assert "$`"[2..] == [];
    assert "$'"[2..] == [];
    assert "$1"[1..] == "1" && "1"[1..] == [];
    assert "$"[1..] == [];
  }

  /** `s.replace(pattern, value)` with a string pattern: only the first occurrence
      is replaced, by `value` with its `$` patterns expanded. */
  function ReplaceFirst(s: string, pattern: string, value: string): (r: string)
    ensures IndexOfFrom(s, pattern, 0).None? ==> r == s
  {
    match IndexOfFrom(s, pattern, 0)
    case None => s
    case Some(i) => s[..i] + Substitution(value, pattern, s[..i], s[i + |pattern|..]) + s[i + |pattern|..]
  }

  /** When the text before an occurrence of `pattern` lacks the pattern's first
      character, that occurrence is the one replaced, by the expanded value, and
      what follows it is kept whatever it holds, further occurrences included. */
  lemma ReplaceFirstAt(pre: string, pattern: string, post: string, value: string)
    requires pattern != [] && pattern[0] !in pre
    ensures ReplaceFirst(pre + pattern + post, pattern, value) == pre + Substitution(value, pattern, pre, post) + post
  {
    var s := pre + pattern + post;
    forall j | 0 <= j < |pre| ensures !OccursAt(s, pattern, j) {
      if j + |pattern| <= |s| {
        assert s[j..j + |pattern|][0] == s[j] == pre[j];
      }
    }
    assert s[|pre|..|pre| + |pattern|] == pattern;
    assert OccursAt(s, pattern, |pre|);
    var r := IndexOfFrom(s, pattern, 0);
    assert r.Some?;
    assert !(r.value < |pre|) && !(|pre| < r.value);
    assert s[..|pre|] == pre && s[|pre| + |pattern|..] == post;
  }

  /** The occurrence replaced is the earliest one: when the pattern does not occur
      before the end of `pre` + `pattern` less its last character, the
      occurrence right after `pre` is the one replaced. */
  lemma ReplaceFirstEarliest(pre: string, pattern: string, post: string, value: string)
    requires pattern != [] && !Includes(pre + pattern[..|pattern| - 1], pattern)
    ensures ReplaceFirst(pre + pattern + post, pattern, value) == pre + Substitution(value, pattern, pre, post) + post
  {
    var s := pre + pattern + post;
    var q := pre + pattern[..|pattern| - 1];
    forall j | 0 <= j < |pre| ensures !OccursAt(s, pattern, j) {
      if OccursAt(s, pattern, j) {
        assert q[j..j + |pattern|] == s[j..j + |pattern|];
        assert OccursAt(q, pattern, j);
        assert false;
      }
    }
    assert s[|pre|..|pre| + |pattern|] == pattern;
    assert OccursAt(s, pattern, |pre|);
    var r := IndexOfFrom(s, pattern, 0);
    assert r.Some?;
    assert !(r.value < |pre|) && !(|pre| < r.value);
    assert s[..|pre|] == pre && s[|pre| + |pattern|..] == post;
  }

  /** A value without a dollar sign replaces the occurrence verbatim. */
  lemma ReplaceFirstPlain(pre: string, pattern: string, post: string, value: string)
    requires pattern != [] && pattern[0] !in pre && '$' !in value
    ensures ReplaceFirst(pre + pattern + post, pattern, value) == pre + value + post
  {
    ReplaceFirstAt(pre, pattern, post, value);
    SubstitutionPlain(value, pattern, pre, post);
  }
}
