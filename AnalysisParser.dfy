/** The label-based analysis parser of the popup's API client: the text after
    `CLEANED`, `SUMMARY` and `REPLY` labels found case-insensitively, with a
    fallback to a numbered list.  The regular expressions are expressed as
    first-occurrence searches. */
module AnalysisParser {
  import opened Js
  import opened ResponseParser

  // ---------------------------------------------------------------------------
  // Case-insensitive labels

  /** The upper-case word `w` occurs at `i` of `s`, ignoring ASCII case. */
  predicate LabelAt(s: string, i: nat, w: string) {
    i + |w| <= |s| && forall k :: 0 <= k < |w| ==> UpperAscii(s[i + k]) == w[k]
  }

  /** No occurrence of `w` starts in `[lo, hi)`. */
  predicate NoLabelIn(s: string, w: string, lo: nat, hi: nat) {
    forall p :: lo <= p < hi ==> !LabelAt(s, p, w)
  }

  /** The first occurrence of `w` at or after `from`. */
  function FindLabel(s: string, w: string, from: nat): (r: Option<nat>)
    decreases |s| - from
    ensures r.Some? ==> from <= r.value && LabelAt(s, r.value, w) && NoLabelIn(s, w, from, r.value)
    ensures r.None? ==> forall p :: from <= p ==> !LabelAt(s, p, w)
  {
    if from + |w| > |s| then None
    else if LabelAt(s, from, w) then Some(from)
    else FindLabel(s, w, from + 1)
  }

  /** One of `stops` occurs at `k`: the alternatives of a lookahead. */
  predicate StopAt(s: string, k: nat, stops: seq<string>) {
    exists j :: 0 <= j < |stops| && LabelAt(s, k, stops[j])
  }

  /** `(?=stop1|stop2|$)`: the first index at or after `from` where one of the
      stops occurs, or the end. */
  function LookaheadEnd(s: string, from: nat, stops: seq<string>): (r: nat)
    requires from <= |s|
    decreases |s| - from
    ensures from <= r <= |s|
    ensures forall k :: from <= k < r ==> !StopAt(s, k, stops)
    ensures r < |s| ==> StopAt(s, r, stops)
  {
    if from == |s| || StopAt(s, from, stops) then from else LookaheadEnd(s, from + 1, stops)
  }

  /** `\s*`: the first index at or after `from` that is not whitespace. */
  function SkipSpace(s: string, from: nat): (r: nat)
    requires from <= |s|
    decreases |s| - from
    ensures from <= r <= |s| && (r < |s| ==> !IsSpace(s[r]))
    ensures forall k :: from <= k < r ==> IsSpace(s[k])
  {
    if from < |s| && IsSpace(s[from]) then SkipSpace(s, from + 1) else from
  }

  /** Where the captured text starts after the label at `i`: past `w`, an
      optional colon, and whitespace. */
  function AfterLabel(s: string, i: nat, w: string): (r: nat)
    requires LabelAt(s, i, w)
    ensures i + |w| <= r <= |s|
  {
    var j := i + |w|;
    SkipSpace(s, if j < |s| && s[j] == ':' then j + 1 else j)
  }

  /** `s.match(/W:?\s*([\s\S]*?)(?=stops|$)/i)`, its group trimmed; `""` when there
      is no match. */
  function Field(s: string, w: string, stops: seq<string>): (r: string)
    ensures Trim(r) == r
    ensures (forall p :: !LabelAt(s, p, w)) ==> r == ""
  {
    match FindLabel(s, w, 0)
    case None => ""
    case Some(i) =>
      var q := AfterLabel(s, i, w);
      TrimIdempotent(s[q..LookaheadEnd(s, q, stops)]);
      Trim(s[q..LookaheadEnd(s, q, stops)])
  }

  /** The three captured fields: trimmed, and empty without their label. */
  function Cleaned(s: string): (r: string)
    ensures Trim(r) == r && ((forall p :: !LabelAt(s, p, "CLEANED")) ==> r == "")
  {
    Field(s, "CLEANED", ["SUMMARY:", "REPLY:"])
  }

  function Summary(s: string): (r: string)
    ensures Trim(r) == r && ((forall p :: !LabelAt(s, p, "SUMMARY")) ==> r == "")
  {
    Field(s, "SUMMARY", ["REPLY:"])
  }

  function Reply(s: string): (r: string)
    ensures Trim(r) == r && ((forall p :: !LabelAt(s, p, "REPLY")) ==> r == "")
  {
    Field(s, "REPLY", [])
  }

  // ---------------------------------------------------------------------------
  // `String.prototype.split(/\d+\.\s+/)`

  function DigitsEnd(s: string, from: nat): (r: nat)
    requires from <= |s|
    decreases |s| - from
    ensures from <= r <= |s| && (r < |s| ==> !IsDigit(s[r]))
  {
    if from < |s| && IsDigit(s[from]) then DigitsEnd(s, from + 1) else from
  }

  /** The end of a match of `\d+\.\s+` starting exactly at `q`, if there is one:
      the greedy digit run must be followed by a dot and at least one space. */
  function NumberMarkEnd(s: string, q: nat): (r: Option<nat>)
    requires q <= |s|
    ensures r.Some? ==> q < r.value <= |s|
  {
    if q < |s| && IsDigit(s[q]) then
      var d := DigitsEnd(s, q);
      if d + 1 < |s| && s[d] == '.' && IsSpace(s[d + 1]) then Some(SkipSpace(s, d + 1)) else None
    else None
  }

  /** The split loop: `s` is what is left of the text and starts with the
      current piece, `q` is the scan position within it. */
  function SplitFrom(s: string, q: nat): (r: seq<string>)
    requires q <= |s|
    decreases |s|, |s| - q
    ensures |r| >= 1
  {
    if q == |s| then [s]
    else match NumberMarkEnd(s, q)
      case Some(e) => [s[..q]] + SplitFrom(s[e..], 0)
      case None => SplitFrom(s, q + 1)
  }

  function NumberedSplit(s: string): seq<string> {
    SplitFrom(s, 0)
  }

  // ---------------------------------------------------------------------------
  // `parseAnalysisResponse(response, originalTranscription)`

  function ParseAnalysisResponse(response: string, originalTranscription: string): (r: Processed)
    ensures r.transcript == originalTranscription
    ensures Cleaned(response) != "" || Summary(response) != "" || Reply(response) != "" ==>
      r == Processed(originalTranscription, Cleaned(response), Summary(response), Reply(response))
    ensures Cleaned(response) == "" && Summary(response) == "" && Reply(response) == "" ==>
      var parts := NumberedSplit(response);
      r == if |parts| >= 5 then Processed(originalTranscription, Trim(parts[2]), Trim(parts[3]), Trim(parts[4]))
           else Processed(originalTranscription, "", "", "")
  {
    var result := Processed(originalTranscription, Cleaned(response), Summary(response), Reply(response));
    if result.cleaned == "" && result.summary == "" && result.reply == "" then
      var parts := NumberedSplit(response);
      if |parts| >= 5 then result.(cleaned := Trim(parts[2]), summary := Trim(parts[3]), reply := Trim(parts[4]))
      else result
    else result
  }

  // ---------------------------------------------------------------------------
  // Reading back a labelled answer

  /** `x` starts an occurrence-free stretch: every position of `x` mismatches `w`
      within `x` itself, so no occurrence of `w` starts in `x` whatever follows. */
  predicate Mismatch(x: string, w: string) {
    x != [] && w != [] && (UpperAscii(x[0]) != w[0] || Mismatch(x[1..], w[1..]))
  }

  predicate Blocks(x: string, w: string) {
    x == [] || (Mismatch(x, w) && Blocks(x[1..], w))
  }

  lemma {:induction false} MismatchNoLabel(x: string, y: string, w: string)
    requires Mismatch(x, w)
    ensures !LabelAt(x + y, 0, w)
    decreases |x|
  {
    if UpperAscii(x[0]) != w[0] {
      assert (x + y)[0] == x[0];
    } else {
      MismatchNoLabel(x[1..], y, w[1..]);
      assert x[1..] + y == (x + y)[1..];
      if |w| <= |x + y| {
        var k' :| 0 <= k' < |w| - 1 && UpperAscii((x[1..] + y)[k']) != w[1..][k'];
        assert (x[1..] + y)[k'] == (x + y)[k' + 1] && w[1..][k'] == w[k' + 1];
      }
    }
  }

  lemma LabelShift(a: string, b: string, p: nat, w: string)
    ensures LabelAt(a + b, |a| + p, w) <==> LabelAt(b, p, w)
  {
    if LabelAt(b, p, w) {
      assert forall k {:trigger w[k]} :: 0 <= k < |w| ==> (a + b)[|a| + p + k] == b[p + k];
    }
    if LabelAt(a + b, |a| + p, w) {
      assert forall k {:trigger w[k]} :: 0 <= k < |w| ==> (a + b)[|a| + p + k] == b[p + k];
    }
  }

  /** A literal that blocks `w` holds no occurrence of it, whatever follows. */
  lemma {:induction false} BlocksNoLabel(x: string, y: string, w: string)
    requires Blocks(x, w)
    ensures NoLabelIn(x + y, w, 0, |x|)
    decreases |x|
  {
    if x != [] {
      MismatchNoLabel(x, y, w);
      BlocksNoLabel(x[1..], y, w);
      forall p | 1 <= p < |x| ensures !LabelAt(x + y, p, w) {
        assert x + y == [x[0]] + (x[1..] + y);
        LabelShift([x[0]], x[1..] + y, p - 1, w);
      }
    }
  }

  /** A character that is no letter of `w`. */
  predicate Foreign(c: char, w: string) {
    w == [] || (UpperAscii(c) != w[0] && Foreign(c, w[1..]))
  }

  lemma {:induction false} ForeignAt(c: char, w: string, k: nat)
    requires Foreign(c, w) && k < |w|
    ensures UpperAscii(c) != w[k]
  {
    if k > 0 {
      ForeignAt(c, w[1..], k - 1);
    }
  }

  /** A piece without `w`, followed by a character foreign to `w`, starts no
      occurrence of `w` either, even one reaching past its end. */
  lemma PieceFree(x: string, y: string, z: string, w: string)
    requires NoLabelIn(y, w, 0, |y|) && z != [] && Foreign(z[0], w)
    ensures NoLabelIn(x + y + z, w, |x|, |x| + |y|)
  {
    var s := x + y + z;
    forall p | |x| <= p < |x| + |y| ensures !LabelAt(s, p, w) {
      var q := p - |x|;
      if q + |w| <= |y| {
        assert forall k {:trigger w[k]} :: 0 <= k < |w| ==> s[p + k] == y[q + k];
        assert !LabelAt(y, q, w);
      } else if p + |w| <= |s| {
        var k := |y| - q;
        assert s[p + k] == z[0];
        ForeignAt(z[0], w, k);
      }
    }
  }

  /** An occurrence of `w + t` is an occurrence of `w`. */
  lemma LongerLabel(s: string, p: nat, w: string, t: string)
    ensures LabelAt(s, p, w + t) ==> LabelAt(s, p, w)
  {
    assert forall k :: 0 <= k < |w| ==> (w + t)[k] == w[k];
  }

  predicate Clean(x: string) {
    x != [] && !IsSpace(x[0]) && !IsSpace(x[|x| - 1])
  }

  /** A trimmed text followed by a newline trims back to itself. */
  lemma TrimNewline(x: string)
    requires Clean(x)
    ensures Trim(x + "\n") == x
  {
    assert TrimStart(x + "\n") == x + "\n";
    assert (x + "\n")[..|x + "\n"| - 1] == x;
    assert TrimEnd(x) == x;
  }

  /** Every character of `w` is its own upper case. */
  predicate UpperWord(w: string) {
    w == [] || (UpperAscii(w[0]) == w[0] && UpperWord(w[1..]))
  }

  lemma {:induction false} UpperWordAt(w: string, k: nat)
    requires UpperWord(w) && k < |w|
    ensures UpperAscii(w[k]) == w[k]
  {
    if k > 0 {
      UpperWordAt(w[1..], k - 1);
    }
  }

  /** An upper-case word written out is an occurrence of itself. */
  lemma LiteralLabel(a: string, w: string, b: string)
    requires UpperWord(w)
    ensures LabelAt(a + w + b, |a|, w)
  {
    forall k | 0 <= k < |w| ensures UpperAscii((a + w + b)[|a| + k]) == w[k] {
      assert (a + w + b)[|a| + k] == w[k];
      UpperWordAt(w, k);
    }
  }

  /** A position whose character is not the word's first starts no occurrence. */
  lemma NoLabelAtChar(s: string, p: nat, w: string)
    requires p < |s| && w != [] && UpperAscii(s[p]) != w[0]
    ensures !LabelAt(s, p, w)
  {
  }

  /** Shifting a stretch without occurrences behind a prefix. */
  lemma NoLabelShift(a: string, b: string, w: string, lo: nat, hi: nat)
    requires NoLabelIn(b, w, lo, hi)
    ensures NoLabelIn(a + b, w, |a| + lo, |a| + hi)
  {
    forall p | |a| + lo <= p < |a| + hi ensures !LabelAt(a + b, p, w) {
      LabelShift(a, b, p - |a|, w);
    }
  }

  /** A stretch without `w` has no occurrence of `w` followed by more. */
  lemma NoLongerLabel(s: string, w: string, t: string, lo: nat, hi: nat)
    requires NoLabelIn(s, w, lo, hi)
    ensures NoLabelIn(s, w + t, lo, hi)
  {
    forall p | lo <= p < hi ensures !LabelAt(s, p, w + t) {
      LongerLabel(s, p, w, t);
    }
  }

  /** The first occurrence is the one with none before it. */
  lemma FindLabelIs(s: string, w: string, from: nat, i: nat)
    requires from <= i && LabelAt(s, i, w) && NoLabelIn(s, w, from, i)
    ensures FindLabel(s, w, from) == Some(i)
  {
  }

  /** The lookahead ends at the first stop. */
  lemma LookaheadIs(s: string, from: nat, stops: seq<string>, k: nat)
    requires from <= k < |s| && StopAt(s, k, stops)
    requires forall j :: from <= j < k ==> !StopAt(s, j, stops)
    ensures LookaheadEnd(s, from, stops) == k
  {
  }

  /** The layout's fixed text, letter by letter: the labels are upper case, the
      newline is no letter of a label, and the heads before a label hold none of
      the later labels. */
  lemma UpperLiterals()
    ensures UpperWord("CLEANED") && UpperWord("SUMMARY") && UpperWord("REPLY")
    ensures UpperWord("SUMMARY:") && UpperWord("REPLY:")
  {
    UpperCleaned();
    UpperSummary();
    UpperReply();
  }

  lemma UpperCleaned() ensures UpperWord("CLEANED") {}
  lemma UpperSummary() ensures UpperWord("SUMMARY") && UpperWord("SUMMARY:") {}
  lemma UpperReply() ensures UpperWord("REPLY") && UpperWord("REPLY:") {}

  lemma ForeignLiterals()
    ensures Foreign('\n', "SUMMARY:") && Foreign('\n', "REPLY:")
    ensures Foreign('\n', "SUMMARY") && Foreign('\n', "REPLY")
  {
    NewlineForeignSummary();
    NewlineForeignReply();
  }

  lemma NewlineForeignSummary() ensures Foreign('\n', "SUMMARY") && Foreign('\n', "SUMMARY:") {}
  lemma NewlineForeignReply() ensures Foreign('\n', "REPLY") && Foreign('\n', "REPLY:") {}

  lemma BlocksLiterals()
    ensures Blocks("CLEANED: ", "SUMMARY") && Blocks("CLEANED: ", "REPLY")
    ensures Blocks("\nSUMMARY: ", "REPLY")
  {
    CleanedHeadBlocksSummary();
    CleanedHeadBlocksReply();
    SummaryHeadBlocksReply();
  }

  lemma CleanedHeadBlocksSummary() ensures Blocks("CLEANED: ", "SUMMARY") {
    assert Blocks(" ", "SUMMARY");
    assert Blocks(": ", "SUMMARY");
    assert Blocks("D: ", "SUMMARY");
    assert Blocks("ED: ", "SUMMARY");
    assert Blocks("NED: ", "SUMMARY");
    assert Blocks("ANED: ", "SUMMARY");
    assert Blocks("EANED: ", "SUMMARY");
    assert Blocks("LEANED: ", "SUMMARY");
    assert Blocks("CLEANED: ", "SUMMARY");
  }
  lemma CleanedHeadBlocksReply() ensures Blocks("CLEANED: ", "REPLY") {
    assert Blocks(" ", "REPLY");
    assert Blocks(": ", "REPLY");
    assert Blocks("D: ", "REPLY");
    assert Blocks("ED: ", "REPLY");
    assert Blocks("NED: ", "REPLY");
    assert Blocks("ANED: ", "REPLY");
    assert Blocks("EANED: ", "REPLY");
    assert Blocks("LEANED: ", "REPLY");
    assert Blocks("CLEANED: ", "REPLY");
  }
  lemma SummaryHeadBlocksReply() ensures Blocks("\nSUMMARY: ", "REPLY") {
    assert Blocks(" ", "REPLY");
    assert Blocks(": ", "REPLY");
    assert Blocks("Y: ", "REPLY");
    assert Blocks("RY: ", "REPLY");
    assert Blocks("ARY: ", "REPLY");
    assert Blocks("MARY: ", "REPLY");
    assert Blocks("MMARY: ", "REPLY");
    assert Blocks("UMMARY: ", "REPLY");
    assert Blocks("SUMMARY: ", "REPLY");
    assert Blocks("\nSUMMARY: ", "REPLY");
  }

  lemma LayoutLiterals()
    ensures UpperWord("CLEANED") && UpperWord("SUMMARY") && UpperWord("REPLY")
    ensures UpperWord("SUMMARY:") && UpperWord("REPLY:")
    ensures Foreign('\n', "SUMMARY:") && Foreign('\n', "REPLY:")
    ensures Foreign('\n', "SUMMARY") && Foreign('\n', "REPLY")
    ensures Blocks("CLEANED: ", "SUMMARY") && Blocks("CLEANED: ", "REPLY")
    ensures Blocks("\nSUMMARY: ", "REPLY")
  {
    UpperLiterals();
    ForeignLiterals();
    BlocksLiterals();
  }

  /** The labelled layout the default prompt asks for. */
  function Labelled(c: string, m: string, r: string): string {
    "CLEANED: " + c + "\nSUMMARY: " + m + "\nREPLY: " + r
  }

  /** A field read off from where its label was found, where its text starts and
      where the lookahead stops it. */
  lemma FieldLine(s: string, w: string, stops: seq<string>, i: nat, q: nat, e: nat, x: string)
    requires FindLabel(s, w, 0) == Some(i) && LabelAt(s, i, w) && AfterLabel(s, i, w) == q
    requires q <= e <= |s| && LookaheadEnd(s, q, stops) == e
    requires Clean(x) && s[q..e] == x + "\n"
    ensures Field(s, w, stops) == x
  {
    TrimNewline(x);
  }

  /** The same for the last field, which no stop ends: it runs to the end of the text. */
  lemma FieldRest(s: string, w: string, i: nat, q: nat, x: string)
    requires FindLabel(s, w, 0) == Some(i) && LabelAt(s, i, w) && AfterLabel(s, i, w) == q
    requires q <= |s| && Clean(x) && s[q..|s|] == x
    ensures Field(s, w, []) == x
  {
    assert LookaheadEnd(s, q, []) == |s|;
    TrimNoop(x);
  }

  /** The `CLEANED` label opens the layout. */
  lemma CleanedFound(c: string, m: string, r: string)
    ensures LabelAt(Labelled(c, m, r), 0, "CLEANED")
    ensures FindLabel(Labelled(c, m, r), "CLEANED", 0) == Some(0)
  {
    var s := Labelled(c, m, r);
    var tail := ": " + c + "\nSUMMARY: " + m + "\nREPLY: " + r;
    assert s == "" + "CLEANED" + tail;
    UpperLiterals();
    LiteralLabel("", "CLEANED", tail);
    FindLabelIs(s, "CLEANED", 0, 0);
  }

  /** The cleaned text starts after "CLEANED: ". */
  lemma CleanedStart(c: string, m: string, r: string)
    requires Clean(c) && LabelAt(Labelled(c, m, r), 0, "CLEANED")
    ensures AfterLabel(Labelled(c, m, r), 0, "CLEANED") == 9
  {
    var s := Labelled(c, m, r);
    assert s[7] == ':' && s[8] == ' ' && s[9] == c[0];
  }

  /** `SUMMARY:` stands right after the newline that ends the cleaned text. */
  lemma CleanedStop(c: string, m: string, r: string)
    ensures LabelAt(Labelled(c, m, r), 10 + |c|, "SUMMARY:")
  {
    var s := Labelled(c, m, r);
    assert s == "CLEANED: " + c + "\n" + "SUMMARY:" + (" " + m + "\nREPLY: " + r);
    UpperLiterals();
    LiteralLabel("CLEANED: " + c + "\n", "SUMMARY:", " " + m + "\nREPLY: " + r);
  }

  /** Neither stop occurs in the cleaned text or on its newline. */
  lemma CleanedNoStop(c: string, m: string, r: string)
    requires NoLabelIn(c, "SUMMARY", 0, |c|) && NoLabelIn(c, "REPLY", 0, |c|)
    ensures NoLabelIn(Labelled(c, m, r), "SUMMARY:", 9, 10 + |c|)
    ensures NoLabelIn(Labelled(c, m, r), "REPLY:", 9, 10 + |c|)
  {
    var s := Labelled(c, m, r);
    var tail := "\nSUMMARY: " + m + "\nREPLY: " + r;
    assert s == "CLEANED: " + c + tail;
    assert NoLabelIn(s, "SUMMARY:", 9, 9 + |c|) by {
      NoLongerLabel(c, "SUMMARY", ":", 0, |c|);
      assert "SUMMARY" + ":" == "SUMMARY:";
      ForeignLiterals();
      PieceFree("CLEANED: ", c, tail, "SUMMARY:");
    }
    assert NoLabelIn(s, "REPLY:", 9, 9 + |c|) by {
      NoLongerLabel(c, "REPLY", ":", 0, |c|);
      assert "REPLY" + ":" == "REPLY:";
      ForeignLiterals();
      PieceFree("CLEANED: ", c, tail, "REPLY:");
    }
    NoLabelAtChar(s, 9 + |c|, "SUMMARY:");
    NoLabelAtChar(s, 9 + |c|, "REPLY:");
  }

  /** In the labelled layout, the cleaned text is read back. */
  lemma CleanedOf(c: string, m: string, r: string)
    requires Clean(c) && NoLabelIn(c, "SUMMARY", 0, |c|) && NoLabelIn(c, "REPLY", 0, |c|)
    ensures Cleaned(Labelled(c, m, r)) == c
  {
    CleanedFacts(c, m, r);
    FieldLine(Labelled(c, m, r), "CLEANED", ["SUMMARY:", "REPLY:"], 0, 9, 10 + |c|, c);
  }

  /** The cleaned text sits between "CLEANED: " and its newline. */
  lemma CleanedLine(c: string, m: string, r: string)
    ensures 10 + |c| <= |Labelled(c, m, r)|
    ensures Labelled(c, m, r)[9..10 + |c|] == c + "\n"
  {
  }

  /** Where the cleaned text's label, text and stop are. */
  lemma CleanedFacts(c: string, m: string, r: string)
    requires Clean(c) && NoLabelIn(c, "SUMMARY", 0, |c|) && NoLabelIn(c, "REPLY", 0, |c|)
    ensures var s := Labelled(c, m, r);
      FindLabel(s, "CLEANED", 0) == Some(0) && LabelAt(s, 0, "CLEANED")
      && AfterLabel(s, 0, "CLEANED") == 9
      && 10 + |c| <= |s| && LookaheadEnd(s, 9, ["SUMMARY:", "REPLY:"]) == 10 + |c|
      && s[9..10 + |c|] == c + "\n"
  {
    var s := Labelled(c, m, r);
    var stops := ["SUMMARY:", "REPLY:"];
    CleanedLine(c, m, r);
    CleanedFound(c, m, r);
    CleanedStart(c, m, r);
    CleanedStop(c, m, r);
    CleanedNoStop(c, m, r);
    assert StopAt(s, 10 + |c|, stops) by {
      assert LabelAt(s, 10 + |c|, stops[0]);
    }
    LookaheadIs(s, 9, stops, 10 + |c|);
  }


  /** The `SUMMARY` label stands after the cleaned text. */
  lemma SummaryAt(c: string, m: string, r: string)
    ensures LabelAt(Labelled(c, m, r), 10 + |c|, "SUMMARY")
  {
    var s := Labelled(c, m, r);
    assert s == "CLEANED: " + c + "\n" + "SUMMARY" + (": " + m + "\nREPLY: " + r);
    UpperLiterals();
    LiteralLabel("CLEANED: " + c + "\n", "SUMMARY", ": " + m + "\nREPLY: " + r);
  }

  /** No `SUMMARY` starts before it. */
  lemma SummaryNotBefore(c: string, m: string, r: string)
    requires NoLabelIn(c, "SUMMARY", 0, |c|)
    ensures NoLabelIn(Labelled(c, m, r), "SUMMARY", 0, 10 + |c|)
  {
    var s := Labelled(c, m, r);
    var tail := "\nSUMMARY: " + m + "\nREPLY: " + r;
    assert NoLabelIn(s, "SUMMARY", 0, 9) by {
      assert s == "CLEANED: " + (c + tail);
      CleanedHeadBlocksSummary();
      BlocksNoLabel("CLEANED: ", c + tail, "SUMMARY");
    }
    assert NoLabelIn(s, "SUMMARY", 9, 10 + |c|) by {
      assert s == "CLEANED: " + c + tail;
      ForeignLiterals();
      PieceFree("CLEANED: ", c, tail, "SUMMARY");
      NoLabelAtChar(s, 9 + |c|, "SUMMARY");
    }
  }

  /** The summary starts after "SUMMARY: ". */
  lemma SummaryStart(c: string, m: string, r: string)
    requires Clean(m) && LabelAt(Labelled(c, m, r), 10 + |c|, "SUMMARY")
    ensures AfterLabel(Labelled(c, m, r), 10 + |c|, "SUMMARY") == 19 + |c|
  {
    var s := Labelled(c, m, r);
    assert s[17 + |c|] == ':' && s[18 + |c|] == ' ' && s[19 + |c|] == m[0];
  }

  /** `REPLY:` stands right after the newline that ends the summary. */
  lemma SummaryStop(c: string, m: string, r: string)
    ensures LabelAt(Labelled(c, m, r), 20 + |c| + |m|, "REPLY:")
  {
    var s := Labelled(c, m, r);
    var pre := "CLEANED: " + c + "\nSUMMARY: ";
    assert s == pre + m + "\n" + "REPLY:" + (" " + r);
    UpperLiterals();
    LiteralLabel(pre + m + "\n", "REPLY:", " " + r);
  }

  /** `REPLY:` does not occur in the summary or on its newline. */
  lemma SummaryNoStop(c: string, m: string, r: string)
    requires NoLabelIn(m, "REPLY", 0, |m|)
    ensures NoLabelIn(Labelled(c, m, r), "REPLY:", 19 + |c|, 20 + |c| + |m|)
  {
    var s := Labelled(c, m, r);
    var pre := "CLEANED: " + c + "\nSUMMARY: ";
    var post := "\nREPLY: " + r;
    assert s == pre + m + post;
    assert NoLabelIn(s, "REPLY:", 19 + |c|, 19 + |c| + |m|) by {
      NoLongerLabel(m, "REPLY", ":", 0, |m|);
      assert "REPLY" + ":" == "REPLY:";
      ForeignLiterals();
      PieceFree(pre, m, post, "REPLY:");
    }
    NoLabelAtChar(s, 19 + |c| + |m|, "REPLY:");
  }

  /** In the labelled layout, the summary is read back. */
  lemma SummaryOf(c: string, m: string, r: string)
    requires Clean(c) && Clean(m) && NoLabelIn(c, "SUMMARY", 0, |c|) && NoLabelIn(m, "REPLY", 0, |m|)
    ensures Summary(Labelled(c, m, r)) == m
  {
    SummaryFacts(c, m, r);
    FieldLine(Labelled(c, m, r), "SUMMARY", ["REPLY:"], 10 + |c|, 19 + |c|, 20 + |c| + |m|, m);
  }

  /** The summary sits between "SUMMARY: " and its newline. */
  lemma SummaryLine(c: string, m: string, r: string)
    ensures 20 + |c| + |m| <= |Labelled(c, m, r)|
    ensures Labelled(c, m, r)[19 + |c|..20 + |c| + |m|] == m + "\n"
  {
  }

  /** Where the summary's label, text and stop are. */
  lemma SummaryFacts(c: string, m: string, r: string)
    requires Clean(c) && Clean(m) && NoLabelIn(c, "SUMMARY", 0, |c|) && NoLabelIn(m, "REPLY", 0, |m|)
    ensures var s := Labelled(c, m, r);
      FindLabel(s, "SUMMARY", 0) == Some(10 + |c|) && LabelAt(s, 10 + |c|, "SUMMARY")
      && AfterLabel(s, 10 + |c|, "SUMMARY") == 19 + |c|
      && 20 + |c| + |m| <= |s| && LookaheadEnd(s, 19 + |c|, ["REPLY:"]) == 20 + |c| + |m|
      && s[19 + |c|..20 + |c| + |m|] == m + "\n"
  {
    var s := Labelled(c, m, r);
    var b := 10 + |c|;
    var q := 19 + |c|;
    var e := 20 + |c| + |m|;
    var stops := ["REPLY:"];
    SummaryLine(c, m, r);
    SummaryAt(c, m, r);
    SummaryNotBefore(c, m, r);
    FindLabelIs(s, "SUMMARY", 0, b);
    SummaryStart(c, m, r);
    SummaryStop(c, m, r);
    SummaryNoStop(c, m, r);
    assert StopAt(s, e, stops) by {
      assert LabelAt(s, e, stops[0]);
    }
    LookaheadIs(s, q, stops, e);
  }


  /** The `REPLY` label stands after the summary. */
  lemma ReplyAt(c: string, m: string, r: string)
    ensures LabelAt(Labelled(c, m, r), 20 + |c| + |m|, "REPLY")
  {
    var s := Labelled(c, m, r);
    var pre := "CLEANED: " + c + "\nSUMMARY: ";
    assert s == pre + m + "\n" + "REPLY" + (": " + r);
    UpperLiterals();
    LiteralLabel(pre + m + "\n", "REPLY", ": " + r);
  }

  /** No `REPLY` starts in the head or the cleaned text. */
  lemma ReplyNotInCleaned(c: string, m: string, r: string)
    requires NoLabelIn(c, "REPLY", 0, |c|)
    ensures NoLabelIn(Labelled(c, m, r), "REPLY", 0, 9 + |c|)
  {
    var s := Labelled(c, m, r);
    var tail := "\nSUMMARY: " + m + "\nREPLY: " + r;
    assert NoLabelIn(s, "REPLY", 0, 9) by {
      assert s == "CLEANED: " + (c + tail);
      CleanedHeadBlocksReply();
      BlocksNoLabel("CLEANED: ", c + tail, "REPLY");
    }
    assert NoLabelIn(s, "REPLY", 9, 9 + |c|) by {
      assert s == "CLEANED: " + c + tail;
      ForeignLiterals();
      PieceFree("CLEANED: ", c, tail, "REPLY");
    }
  }

  /** No `REPLY` starts in the summary's head. */
  lemma ReplyNotInSummaryHead(c: string, m: string, r: string)
    ensures NoLabelIn(Labelled(c, m, r), "REPLY", 9 + |c|, 19 + |c|)
  {
    var s := Labelled(c, m, r);
    var post := "\nREPLY: " + r;
    assert s == ("CLEANED: " + c) + ("\nSUMMARY: " + (m + post));
    SummaryHeadBlocksReply();
    BlocksNoLabel("\nSUMMARY: ", m + post, "REPLY");
    NoLabelShift("CLEANED: " + c, "\nSUMMARY: " + (m + post), "REPLY", 0, 10);
  }

  /** No `REPLY` starts in the summary or on its newline. */
  lemma ReplyNotInSummary(c: string, m: string, r: string)
    requires NoLabelIn(m, "REPLY", 0, |m|)
    ensures NoLabelIn(Labelled(c, m, r), "REPLY", 19 + |c|, 20 + |c| + |m|)
  {
    var s := Labelled(c, m, r);
    var pre := "CLEANED: " + c + "\nSUMMARY: ";
    var post := "\nREPLY: " + r;
    assert s == pre + m + post;
    assert NoLabelIn(s, "REPLY", 19 + |c|, 19 + |c| + |m|) by {
      ForeignLiterals();
      PieceFree(pre, m, post, "REPLY");
    }
    NoLabelAtChar(s, 19 + |c| + |m|, "REPLY");
  }

  /** The reply starts after "REPLY: ". */
  lemma ReplyStart(c: string, m: string, r: string)
    requires Clean(r) && LabelAt(Labelled(c, m, r), 20 + |c| + |m|, "REPLY")
    ensures AfterLabel(Labelled(c, m, r), 20 + |c| + |m|, "REPLY") == 27 + |c| + |m|
  {
    var s := Labelled(c, m, r);
    var b := 20 + |c| + |m|;
    assert s[b + 5] == ':' && s[b + 6] == ' ' && s[b + 7] == r[0];
  }

  /** In the labelled layout, the reply is read back. */
  lemma ReplyOf(c: string, m: string, r: string)
    requires Clean(c) && Clean(m) && Clean(r)
    requires NoLabelIn(c, "REPLY", 0, |c|) && NoLabelIn(m, "REPLY", 0, |m|)
    ensures Reply(Labelled(c, m, r)) == r
  {
    var s := Labelled(c, m, r);
    var b := 20 + |c| + |m|;
    ReplyFound(c, m, r);
    ReplyStart(c, m, r);
    ReplyLine(c, m, r);
    FieldRest(s, "REPLY", b, b + 7, r);
  }

  /** The reply is everything after "REPLY: ". */
  lemma ReplyLine(c: string, m: string, r: string)
    ensures |Labelled(c, m, r)| == 27 + |c| + |m| + |r|
    ensures Labelled(c, m, r)[27 + |c| + |m|..|Labelled(c, m, r)|] == r
  {
    var pre := "CLEANED: " + c + "\nSUMMARY: " + m + "\nREPLY: ";
    assert Labelled(c, m, r) == pre + r;
    assert (pre + r)[|pre|..|pre + r|] == r;
  }

  /** The first `REPLY` is the label after the summary. */
  lemma ReplyFound(c: string, m: string, r: string)
    requires NoLabelIn(c, "REPLY", 0, |c|) && NoLabelIn(m, "REPLY", 0, |m|)
    ensures LabelAt(Labelled(c, m, r), 20 + |c| + |m|, "REPLY")
    ensures FindLabel(Labelled(c, m, r), "REPLY", 0) == Some(20 + |c| + |m|)
  {
    ReplyAt(c, m, r);
    ReplyNotInCleaned(c, m, r);
    ReplyNotInSummaryHead(c, m, r);
    ReplyNotInSummary(c, m, r);
    FindLabelIs(Labelled(c, m, r), "REPLY", 0, 20 + |c| + |m|);
  }


  /** An answer laid out with the three labels, whose sections are trimmed,
      non-empty and do not mention the later labels, parses back to its
      sections. */
  lemma LabelledRoundTrip(c: string, m: string, r: string, transcription: string)
    requires Clean(c) && Clean(m) && Clean(r)
    requires NoLabelIn(c, "SUMMARY", 0, |c|) && NoLabelIn(c, "REPLY", 0, |c|) && NoLabelIn(m, "REPLY", 0, |m|)
    ensures ParseAnalysisResponse(Labelled(c, m, r), transcription) == Processed(transcription, c, m, r)
  {
    CleanedOf(c, m, r);
    SummaryOf(c, m, r);
    ReplyOf(c, m, r);
  }

  // ---------------------------------------------------------------------------
  // Reading back a numbered answer

  /** `x`, then the list number `d` followed by a dot and a space, then `rest`. */
  function Item(x: string, d: char, rest: string): string {
    x + [d, '.', ' '] + rest
  }

  /** Four sections after a preamble, each after its list number:
      `pre + "1. " + t + "2. " + c + "3. " + m + "4. " + r`. */
  function Numbered(pre: string, t: string, c: string, m: string, r: string): string {
    Item(pre, '1', Item(t, '2', Item(c, '3', Item(m, '4', r))))
  }

  predicate NoDigits(x: string) {
    forall k :: 0 <= k < |x| ==> !IsDigit(x[k])
  }

  /** No split starts inside a stretch without digits. */
  lemma {:induction false} SplitSkip(s: string, q: nat, n: nat)
    requires q + n <= |s| && NoDigits(s[q..q + n])
    ensures SplitFrom(s, q) == SplitFrom(s, q + n)
    decreases n
  {
    if n > 0 {
      assert s[q..q + n][0] == s[q];
      assert s[q + 1..q + n] == s[q..q + n][1..];
      SplitSkip(s, q + 1, n - 1);
    }
  }

  /** A piece without digits that ends in a one-digit list number is the
      first piece of the split, and the rest splits on its own. */
  lemma SplitItem(x: string, d: char, rest: string)
    requires NoDigits(x) && IsDigit(d) && rest != [] && !IsSpace(rest[0])
    ensures NumberedSplit(Item(x, d, rest)) == [x] + NumberedSplit(rest)
  {
    var s := Item(x, d, rest);
    var q := |x|;
    assert s[0..q] == x;
    assert s[q] == d && s[q + 1] == '.' && s[q + 2] == ' ' && s[q + 3] == rest[0];
    SplitSkip(s, 0, q);
    assert DigitsEnd(s, q + 1) == q + 1;
    assert SkipSpace(s, q + 3) == q + 3;
    assert NumberMarkEnd(s, q) == Some(q + 3);
    assert s[..q] == x && s[q + 3..] == rest;
  }

  /** The numbered layout splits into its preamble and its four sections. */
  lemma NumberedPieces(pre: string, t: string, c: string, m: string, r: string)
    requires NoDigits(pre) && NoDigits(t) && NoDigits(c) && NoDigits(m) && NoDigits(r)
    requires Clean(t) && Clean(c) && Clean(m) && Clean(r)
    ensures NumberedSplit(Numbered(pre, t, c, m, r)) == [pre, t, c, m, r]
  {
    var r3 := Item(m, '4', r);
    var r2 := Item(c, '3', r3);
    var r1 := Item(t, '2', r2);
    SplitItem(pre, '1', r1);
    SplitItem(t, '2', r2);
    SplitItem(c, '3', r3);
    SplitItem(m, '4', r);
    assert r[0..|r|] == r;
    SplitSkip(r, 0, |r|);
  }

  /** An answer without labels, laid out as a numbered list of trimmed,
      non-empty sections without digits, parses back to its second, third
      and fourth sections. */
  lemma NumberedRoundTrip(pre: string, t: string, c: string, m: string, r: string, transcription: string)
    requires NoDigits(pre) && NoDigits(t) && NoDigits(c) && NoDigits(m) && NoDigits(r)
    requires Clean(t) && Clean(c) && Clean(m) && Clean(r)
    requires forall p :: !LabelAt(Numbered(pre, t, c, m, r), p, "CLEANED")
    requires forall p :: !LabelAt(Numbered(pre, t, c, m, r), p, "SUMMARY")
    requires forall p :: !LabelAt(Numbered(pre, t, c, m, r), p, "REPLY")
    ensures ParseAnalysisResponse(Numbered(pre, t, c, m, r), transcription) == Processed(transcription, c, m, r)
  {
    var s := Numbered(pre, t, c, m, r);
    assert Cleaned(s) == "" && Summary(s) == "" && Reply(s) == "";
    NumberedPieces(pre, t, c, m, r);
    var parts := NumberedSplit(s);
    assert parts[2] == c && parts[3] == m && parts[4] == r;
    TrimNoop(c);
    TrimNoop(m);
    TrimNoop(r);
  }
}
