/** Properties of the handler that relate several calls or quantify over
    its inputs and outputs. */
module MusicCallbackProperties {
  import opened Wrappers
  import opened MusicCallback

  /** The classification is onto: each of the three statuses is the
      classification of some raw string. */
  lemma ClassifyStatusOnto(s: Status)
    ensures exists raw :: ClassifyStatus(raw) == s
  {
    match s
    case Complete => assert ClassifyStatus("complete") == s;
    case Error => assert ClassifyStatus("error") == s;
    case Pending => assert ClassifyStatus("streaming") == s;
  }

  /** Every well-formed envelope is returned for some outcome; with the
      `WellFormed` postcondition of `Handle`, the handler's results are
      exactly the well-formed envelopes. */
  lemma HandleOnto(r: MusicCallbackResponse)
    requires WellFormed(r)
    ensures exists o :: Handle(o) == r
  {
    if IsSuccessEnvelope(r) {
      var o := Fetched(Array([Record(r.data.value)]));
      assert Handle(o) == r;
    } else {
      var o := Failed(ErrorObject(r.error.value));
      assert Handle(o) == r;
    }
  }

  /** Only the first element matters: two bodies that are non-empty arrays
      with the same first element give the same envelope, whatever follows. */
  lemma LaterElementsIgnored(first: Element, rest1: seq<Element>, rest2: seq<Element>)
    ensures Handle(Fetched(Array([first] + rest1))) == Handle(Fetched(Array([first] + rest2)))
  {
  }

  /** The presence flags do not depend on the status: replacing the record's
      raw status by any other string leaves the flags as they were, and each
      flag is set exactly when its locator is non-empty. */
  lemma FlagsIgnoreStatus(info: MusicInfo, raw: string, rest: seq<Element>)
    ensures var r1 := Handle(Fetched(Array([Record(info)] + rest)));
            var r2 := Handle(Fetched(Array([Record(info.(status := raw))] + rest)));
            && r1.hasImage == r2.hasImage == (info.imageUrl != "")
            && r1.hasAudio == r2.hasAudio == (info.audioUrl != "")
            && r1.hasVideo == r2.hasVideo == (info.videoUrl != "")
  {
  }

  /** A raw status of "error" goes down the success path: the envelope has
      status `Error` and still carries the record, with no error message. */
  lemma ErrorStatusKeepsData(info: MusicInfo, rest: seq<Element>)
    requires info.status == "error"
    ensures var r := Handle(Fetched(Array([Record(info)] + rest)));
            r.status == Error && r.data == Some(info) && r.error.None?
  {
  }

  /** So status `Error` has two sources: the failure envelope, which alone
      guarantees that no record is present, and a record whose raw status is
      "error". */
  lemma ErrorStatusSources(o: Outcome)
    ensures Handle(o).status == Error <==>
              IsFailureEnvelope(Handle(o)) ||
              (o.Fetched? && HasFirstRecord(o.body) && o.body.elements[0].info.status == "error")
    ensures Handle(o).status == Error && Handle(o).data.Some? <==>
              o.Fetched? && HasFirstRecord(o.body) && o.body.elements[0].info.status == "error"
  {
  }

  /** The two malformed-body failures carry different messages. */
  lemma MalformedBodiesDistinguished(b1: Body, b2: Body)
    requires !IsNonEmptyArray(b1)
    requires IsNonEmptyArray(b2) && b2.elements[0].Falsy?
    ensures Handle(Fetched(b1)).error.Some? && Handle(Fetched(b2)).error.Some?
    ensures Handle(Fetched(b1)).error != Handle(Fetched(b2)).error
  {
  }

  /** The envelope does not record the cause of a failure beyond its message:
      a transport failure whose message is one of the fixed messages is
      indistinguishable from the malformed body that produces it. */
  lemma FailureCauseOnlyInMessage(b: Body)
    requires !HasFirstRecord(b)
    ensures Handle(Fetched(b)) == Handle(Failed(ErrorObject(Handle(Fetched(b)).error.value)))
  {
  }

  /** The complete-job scenario: a finished job with an image and an audio
      locator but no video. */
  lemma CompleteScenario()
    ensures var info := MusicInfo("abc123", "", "http://x/img.png", "", "http://x/a.mp3", "",
                                  "", "", "complete", "", "", "");
            Handle(Fetched(Array([Record(info)]))) ==
              MusicCallbackResponse(Some(info), None, Complete, true, true, false)
  {
  }

  /** The streaming scenario: an unrecognised raw status is pending, and no
      locator is present yet. */
  lemma StreamingScenario()
    ensures var info := MusicInfo("abc123", "", "", "", "", "", "", "", "streaming", "", "", "");
            Handle(Fetched(Array([Record(info)]))) ==
              MusicCallbackResponse(Some(info), None, Pending, false, false, false)
  {
  }

  /** A transport failure with message "network down" is reported as is. */
  lemma NetworkDownScenario()
    ensures Handle(Failed(ErrorObject("network down"))) ==
              MusicCallbackResponse(None, Some("network down"), Error, false, false, false)
  {
  }
}
