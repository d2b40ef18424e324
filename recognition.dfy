/** The `onresult` handler of the speech recognizer: it folds the results of one
    recognition event, from `resultIndex` on, into the text of the finalized ones. */
module Recognition {

  /** One entry of `event.results`: the transcript of its first alternative
      (`results[i][0].transcript`) and whether the recognizer has finalized it. */
  datatype SpeechResult = SpeechResult(transcript: string, isFinal: bool)

  /** The transcripts of the final results, in order; interim results are dropped. */
  function Finals(rs: seq<SpeechResult>): seq<string>
  {
    if rs == [] then []
    else (if rs[0].isFinal then [rs[0].transcript] else []) + Finals(rs[1..])
  }

  function Concat(ts: seq<string>): string {
    if ts == [] then "" else ts[0] + Concat(ts[1..])
  }

  /** The results the loop visits: those at index `resultIndex` or later. */
  function From(results: seq<SpeechResult>, resultIndex: nat): seq<SpeechResult> {
    if resultIndex <= |results| then results[resultIndex..] else []
  }

  /** The text an event contributes: its final transcripts from `resultIndex` on, concatenated. */
  function FinalText(results: seq<SpeechResult>, resultIndex: nat): string {
    Concat(Finals(From(results, resultIndex)))
  }

  lemma {:induction false} FinalsAppend(a: seq<SpeechResult>, b: seq<SpeechResult>)
    ensures Finals(a + b) == Finals(a) + Finals(b)
  {
    if a != [] {
      assert (a + b)[1..] == a[1..] + b;
      FinalsAppend(a[1..], b);
    } else {
      assert a + b == b;
    }
  }

  lemma {:induction false} ConcatAppend(a: seq<string>, b: seq<string>)
    ensures Concat(a + b) == Concat(a) + Concat(b)
  {
    if a != [] {
      assert (a + b)[1..] == a[1..] + b;
      ConcatAppend(a[1..], b);
    } else {
      assert a + b == b;
    }
  }

  /** Extending the visited window by one result adds that result's transcript when it is final. */
  lemma {:induction false} FinalTextStep(results: seq<SpeechResult>, from: nat, i: nat)
    requires from <= i < |results|
    ensures Concat(Finals(results[from..i + 1]))
         == Concat(Finals(results[from..i])) + (if results[i].isFinal then results[i].transcript else "")
  {
    var r := results[i];
    assert results[from..i + 1] == results[from..i] + [r];
    FinalsAppend(results[from..i], [r]);
    ConcatAppend(Finals(results[from..i]), Finals([r]));
    assert Finals([r]) == if r.isFinal then [r.transcript] else [];
  }

  /** The loop of `onresult`: visits `results[resultIndex..]` and appends each
      final transcript to `finalTranscript`. */
  method FinalTranscript(results: seq<SpeechResult>, resultIndex: nat) returns (finalTranscript: string)
    ensures finalTranscript == FinalText(results, resultIndex)
  {
    finalTranscript := "";
    var i := resultIndex;
    while i < |results|
      invariant resultIndex <= |results| ==> resultIndex <= i <= |results|
      invariant resultIndex <= |results| ==> finalTranscript == Concat(Finals(results[resultIndex..i]))
      invariant resultIndex > |results| ==> i == resultIndex && finalTranscript == ""
      decreases |results| - i
    {
      var r := results[i];
      FinalTextStep(results, resultIndex, i);
      if r.isFinal {
        finalTranscript := finalTranscript + r.transcript;
      }
      i := i + 1;
    }
    if resultIndex <= |results| {
      assert results[resultIndex..i] == results[resultIndex..];
    }
  }

  /** An event whose visited results are all interim contributes nothing. */
  lemma {:induction false} NoFinalNoText(rs: seq<SpeechResult>)
    requires forall i :: 0 <= i < |rs| ==> !rs[i].isFinal
    ensures Concat(Finals(rs)) == ""
  {
    if rs != [] {
      assert !rs[0].isFinal;
      assert [] + Finals(rs[1..]) == Finals(rs[1..]);
      NoFinalNoText(rs[1..]);
    }
  }

  /** Interim results anywhere among the visited ones do not change the text. */
  lemma {:induction false} InterimIgnored(a: seq<SpeechResult>, interim: SpeechResult, b: seq<SpeechResult>)
    requires !interim.isFinal
    ensures Concat(Finals(a + [interim] + b)) == Concat(Finals(a + b))
  {
    FinalsAppend(a + [interim], b);
    FinalsAppend(a, [interim]);
    FinalsAppend(a, b);
    assert Finals([interim]) == [];
    assert Finals(a) + [] == Finals(a);
  }

  /** A visited final result contributes its whole transcript, after those before it. */
  lemma {:induction false} FinalContributes(a: seq<SpeechResult>, final: SpeechResult, b: seq<SpeechResult>)
    requires final.isFinal
    ensures Concat(Finals(a + [final] + b))
         == Concat(Finals(a)) + final.transcript + Concat(Finals(b))
  {
    FinalsAppend(a + [final], b);
    FinalsAppend(a, [final]);
    assert Finals([final]) == [final.transcript];
    ConcatAppend(Finals(a) + [final.transcript], Finals(b));
    ConcatAppend(Finals(a), [final.transcript]);
    assert Concat([final.transcript]) == final.transcript;
  }

  /** Results before `resultIndex` were delivered by earlier events and are skipped. */
  lemma {:induction false} EarlierResultsSkipped(earlier: seq<SpeechResult>, current: seq<SpeechResult>)
    ensures FinalText(earlier + current, |earlier|) == Concat(Finals(current))
  {
  }
}
