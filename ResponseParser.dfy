/** The `----` section parser that turns a language model's reply into the
    extension's four-part result: the original transcript, a cleaned version, a
    summary and a suggested reply. */
module ResponseParser {
  import opened Js

  /** The structured result every processing path returns. */
  datatype Processed = Processed(transcript: string, cleaned: string, summary: string, reply: string)

  const Separator: string := "----"
  const NotExpectedFormat: string := "Error: AI response was not in the expected format"
  const SectionsMissing: string := "Error: Some sections were missing from the AI response"
  const TryAgain: string := "Please try transcribing again"

  /** `response.split("----").map((s) => s.trim())`. */
  function Sections(response: string): (r: seq<string>)
    ensures |r| == |Split(response, Separator)|
    ensures forall k :: 0 <= k < |r| ==> r[k] == Trim(Split(response, Separator)[k])
  {
    var pieces := Split(response, Separator);
    seq(|pieces|, k requires 0 <= k < |pieces| => Trim(pieces[k]))
  }

  /** `parseProcessedResponse(response, originalTranscription)`: the transcript is
      always the original transcription, and summary and reply are never empty. */
  function ParseProcessedResponse(response: string, original: string): (r: Processed)
    ensures r.transcript == original
    ensures r.summary != "" && r.reply != ""
  {
    var sections := Sections(response);
    if |sections| < 4 then
      Processed(original, Trim(response), NotExpectedFormat, TryAgain)
    else
      var cleaned, summary, reply := sections[1], sections[2], sections[3];
      if cleaned == "" || summary == "" || reply == "" then
        Processed(original, cleaned, Or(summary, SectionsMissing), Or(reply, TryAgain))
      else
        Processed(original, cleaned, summary, reply)
  }

  /** Fewer than four pieces: the whole reply, trimmed, becomes `cleaned`, and the
      summary and reply carry the fixed "not in the expected format" texts. */
  lemma ParseTooFewSections(response: string, original: string)
    requires |Split(response, Separator)| < 4
    ensures ParseProcessedResponse(response, original)
         == Processed(original, Trim(response), NotExpectedFormat, TryAgain)
  {
  }

  /** Four or more pieces: pieces 1, 2 and 3 (trimmed) are the fields; piece 0 and
      any piece after 3 are ignored; an empty summary or reply is replaced by its
      fixed fallback text, an empty `cleaned` stays empty. */
  lemma ParseSections(response: string, original: string)
    requires |Split(response, Separator)| >= 4
    ensures var p := Split(response, Separator);
      ParseProcessedResponse(response, original)
        == Processed(original, Trim(p[1]), Or(Trim(p[2]), SectionsMissing), Or(Trim(p[3]), TryAgain))
  {
  }

  /** A piece that cannot interfere with the separator around it. */
  predicate SectionText(p: string) {
    p != "" && Trim(p) == p && !Includes(p, Separator) && p[|p| - 1] != '-'
  }

  lemma SectionTextIsClean(p: string)
    requires SectionText(p)
    ensures CleanBefore(p, Separator)
  {
    forall j | 0 <= j < |p|
      ensures !OccursAt(p + Separator, Separator, j)
    {
      if j + 4 <= |p| {
        assert (p + Separator)[j..j + 4] == p[j..j + 4];
        IncludesIff(p, Separator);
        assert !OccursAt(p, Separator, j);
      } else {
        assert (p + Separator)[|p| - 1] == p[|p| - 1];
        assert (p + Separator)[j..j + 4][|p| - 1 - j] == (p + Separator)[|p| - 1];
        assert forall m :: 0 <= m < 4 ==> Separator[m] == '-';
      }
    }
  }

  /** Round trip: four sections written with the `----` separator parse back to
      sections 1 to 3, with the original transcription as the transcript. */
  lemma ParseRoundTrip(p0: string, p1: string, p2: string, p3: string, original: string)
    requires SectionText(p0) && SectionText(p1) && SectionText(p2) && SectionText(p3)
    ensures ParseProcessedResponse(Join([p0, p1, p2, p3], Separator), original)
         == Processed(original, p1, p2, p3)
  {
    var pieces := [p0, p1, p2, p3];
    SectionTextIsClean(p0);
    SectionTextIsClean(p1);
    SectionTextIsClean(p2);
    SplitJoin(pieces, Separator);
  }
}
