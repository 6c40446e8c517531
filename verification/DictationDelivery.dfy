/** The text that deliveries and edits leave in a composer, over whole runs. */
module DictationDelivery {
  import opened Prelude
  import opened DictationComposer
  import JsText

  // ---------------------------------------------------------------------------
  // One event
  // ---------------------------------------------------------------------------

  predicate EndsIn<T(==)>(whole: seq<T>, end: seq<T>) {
    |end| <= |whole| && whole[|whole| - |end|..] == end
  }

  /** Nothing behind white space, one blank behind anything else. */
  function Separator(before: string): string {
    if |before| > 0 && JsText.IsSpace(before[|before| - 1]) then [] else [' ']
  }

  /** What the delivery of `clean` makes of `before`. */
  predicate Extends(before: string, clean: string, after: string) {
    if clean == [] then after == before
    else if JsText.IsBlank(before) then after == clean
    else after == before + (Separator(before) + clean)
  }

  lemma Assoc(a: string, b: string, c: string)
    ensures a + b + c == a + (b + c)
  {
  }

  lemma Composes(current: string, transcript: string)
    ensures Extends(current, JsText.Trim(transcript), Compose(current, transcript))
  {
    if !JsText.IsBlank(current) {
      Assoc(current, Separator(current), JsText.Trim(transcript));
    }
  }

  lemma ExtendedEndsIn(before: string, clean: string, after: string)
    requires Extends(before, clean, after)
    ensures EndsIn(after, clean)
  {
    if clean != [] && !JsText.IsBlank(before) {
      Assoc(before, Separator(before), clean);
      Behind(before + Separator(before), clean);
    }
  }

  lemma DeliveryExtends(prior: Option<Record>, id: string, transcript: string, at: int)
    requires id !in Ids(prior)
    ensures Extends(Text(prior), JsText.Trim(transcript), Text(After(prior, Deliver(id, transcript, at))))
    ensures Ids(After(prior, Deliver(id, transcript, at))) == Tail(Ids(prior)) + [id]
  {
    Composes(Text(prior), transcript);
  }

  /**
   * A delivery that is not a replay ends the text in its trimmed transcript, behind the text that
   * was there and its separator unless that was blank; a blank transcript changes no text.  The
   * delivery is remembered.
   */
  lemma DeliveryExtendsText(prior: Option<Record>, id: string, transcript: string, at: int)
    requires id !in Ids(prior)
    ensures var before, after, clean := Text(prior), Text(After(prior, Deliver(id, transcript, at))), JsText.Trim(transcript);
            && EndsIn(after, clean)
            && (JsText.IsBlank(transcript) ==> after == before)
            && (!JsText.IsBlank(transcript) && JsText.IsBlank(before) ==> after == clean)
            && (!JsText.IsBlank(transcript) && !JsText.IsBlank(before) ==> after == before + (Separator(before) + clean))
    ensures var ids := Ids(After(prior, Deliver(id, transcript, at))); ids != [] && ids[|ids| - 1] == id
  {
    DeliveryExtends(prior, id, transcript, at);
    ExtendedEndsIn(Text(prior), JsText.Trim(transcript), Text(After(prior, Deliver(id, transcript, at))));
  }

  lemma Behind(front: string, end: string)
    ensures EndsIn(front + end, end)
  {
  }

  /** The delivery is remembered last, behind the latest thirty-one before it, and keeps the record alive from then on. */
  lemma DeliveryIsRemembered(prior: Option<Record>, id: string, transcript: string, at: int)
    requires id !in Ids(prior)
    ensures var after := After(prior, Deliver(id, transcript, at));
            && after.Some? && after.value.updatedAt == at
            && exists kept :: EndsIn(Ids(prior), kept) && |kept| == Min(|Ids(prior)|, 31) && Ids(after) == kept + [id]
  {
    var kept := Tail(Ids(prior));
    assert EndsIn(Ids(prior), kept) && |kept| == Min(|Ids(prior)|, 31);
  }

  /** A replay leaves the whole record as it was. */
  lemma ReplayChangesNothing(prior: Option<Record>, id: string, transcript: string, at: int)
    requires id in Ids(prior)
    ensures After(prior, Deliver(id, transcript, at)) == prior
  {
  }

  /** An edit leaves exactly its own text, and forgets no delivery but the oldest beyond thirty-one. */
  lemma EditLeavesItsText(prior: Option<Record>, text: string, at: int)
    ensures var after := After(prior, Edit(text, at));
            && after.Some? && Text(after) == text && after.value.updatedAt == at
            && EndsIn(Ids(prior), Ids(after)) && |Ids(after)| == Min(|Ids(prior)|, 31)
  {
  }

  // ---------------------------------------------------------------------------
  // Runs of deliveries
  // ---------------------------------------------------------------------------

  predicate OnlyDeliveries(events: seq<Event>) {
    forall i :: 0 <= i < |events| ==> events[i].Deliver?
  }

  /** The record after all of `events`. */
  function Through(prior: Option<Record>, events: seq<Event>): Option<Record> {
    if events == [] then prior else After(Through(prior, events[..|events| - 1]), events[|events| - 1])
  }

  /** The delivery ids in the order they first came. */
  function FirstIds(events: seq<Event>): seq<string>
    requires OnlyDeliveries(events)
  {
    if events == [] then []
    else
      var before, last := FirstIds(events[..|events| - 1]), events[|events| - 1];
      before + if last.id in before then [] else [last.id]
  }

  /** The trimmed transcripts of first deliveries in their order, blank ones left out. */
  function FirstTexts(events: seq<Event>): seq<string>
    requires OnlyDeliveries(events)
  {
    if events == [] then []
    else
      var front, last := events[..|events| - 1], events[|events| - 1];
      FirstTexts(front) + if last.id in FirstIds(front) || JsText.IsBlank(last.transcript) then [] else [JsText.Trim(last.transcript)]
  }

  /** `texts.join(" ")`. */
  function Joined(texts: seq<string>): string {
    if |texts| == 0 then ""
    else if |texts| == 1 then texts[0]
    else Joined(texts[..|texts| - 1]) + " " + texts[|texts| - 1]
  }

  /** Whenever a delivery comes again, at most thirty-one other ones have first come since its own first time. */
  predicate SoonRepeated(events: seq<Event>)
    requires OnlyDeliveries(events)
  {
    events == [] ||
    (var front, last := events[..|events| - 1], events[|events| - 1];
     && SoonRepeated(front)
     && (last.id in FirstIds(front) ==> Remembered(FirstIds(front), last.id, 31)))
  }

  lemma {:induction false} FirstIdsAreDistinct(events: seq<Event>)
    requires OnlyDeliveries(events)
    ensures forall i, j :: 0 <= i < j < |FirstIds(events)| ==> FirstIds(events)[i] != FirstIds(events)[j]
    ensures forall id :: id in FirstIds(events) <==> exists k :: 0 <= k < |events| && events[k].id == id
  {
    if events != [] {
      var front, last := events[..|events| - 1], events[|events| - 1];
      FirstIdsAreDistinct(front);
      assert forall k :: 0 <= k < |front| ==> front[k] == events[k];
      forall id
        ensures id in FirstIds(events) <==> exists k :: 0 <= k < |events| && events[k].id == id
      {
        if id == last.id {
          assert events[|front|].id == id;
        }
      }
    }
  }

  /** The last thirty-two of a list. */
  function Latest(ids: seq<string>): seq<string> {
    if |ids| <= 32 then ids else ids[|ids| - 32..]
  }

  lemma LatestAppends(ids: seq<string>, id: string)
    ensures Tail(Latest(ids)) + [id] == Latest(ids + [id])
  {
  }

  lemma LatestRemembers(ids: seq<string>, id: string)
    ensures id in Latest(ids) <==> Remembered(ids, id, 31)
  {
    var latest := Latest(ids);
    if id in latest {
      var i :| 0 <= i < |latest| && latest[i] == id;
      assert ids[|ids| - |latest| + i] == id;
    }
    if Remembered(ids, id, 31) {
      var i :| 0 <= i < |ids| && i >= |ids| - 1 - 31 && ids[i] == id;
      assert latest[i - (|ids| - |latest|)] == id;
    }
  }

  lemma {:induction false} RememberedAreFirst(ids: seq<string>, id: string)
    requires id in Latest(ids)
    ensures id in ids
  {
    var i :| 0 <= i < |Latest(ids)| && Latest(ids)[i] == id;
    assert ids[|ids| - |Latest(ids)| + i] == id;
  }

  predicate Clean(text: string) {
    text != [] && !JsText.IsSpace(text[0]) && !JsText.IsSpace(text[|text| - 1])
  }

  lemma {:induction false} FirstTextsAreClean(events: seq<Event>)
    requires OnlyDeliveries(events)
    ensures forall i :: 0 <= i < |FirstTexts(events)| ==> Clean(FirstTexts(events)[i])
  {
    if events != [] {
      FirstTextsAreClean(events[..|events| - 1]);
    }
  }

  lemma JoinedIsClean(texts: seq<string>)
    requires forall i :: 0 <= i < |texts| ==> Clean(texts[i])
    ensures if |texts| == 0 then Joined(texts) == [] else !JsText.IsBlank(Joined(texts)) && !JsText.IsSpace(Joined(texts)[|Joined(texts)| - 1])
  {
    if |texts| > 0 {
      var joined, last := Joined(texts), texts[|texts| - 1];
      assert joined[|joined| - 1] == last[|last| - 1];
    }
  }

  lemma JoinedNext(texts: seq<string>, text: string)
    ensures Joined(texts + [text]) == if |texts| == 0 then text else Joined(texts) + " " + text
  {
    assert (texts + [text])[..|texts|] == texts;
  }

  /**
   * From an empty composer, without edits, from any tabs and with any replays that come soon
   * enough: the text is the non-blank transcripts, each trimmed and each once, in the order they
   * first came, with one blank between them.
   */
  lemma {:induction false} TextIsEachTranscriptOnce(events: seq<Event>)
    requires OnlyDeliveries(events) && SoonRepeated(events)
    ensures Text(Through(None, events)) == Joined(FirstTexts(events))
    ensures Ids(Through(None, events)) == Latest(FirstIds(events))
  {
    if events != [] {
      var front, last := events[..|events| - 1], events[|events| - 1];
      TextIsEachTranscriptOnce(front);
      var prior, ids := Through(None, front), FirstIds(front);
      LatestRemembers(ids, last.id);
      if last.id in ids {
        ReplayChangesNothing(prior, last.id, last.transcript, last.at);
        assert FirstIds(events) == ids && FirstTexts(events) == FirstTexts(front);
      } else {
        if last.id in Latest(ids) {
          RememberedAreFirst(ids, last.id);
        }
        NextDelivery(prior, front, last);
        assert FirstIds(events) == ids + [last.id];
        assert FirstTexts(events) == FirstTexts(front) + if JsText.IsBlank(last.transcript) then [] else [JsText.Trim(last.transcript)];
      }
    }
  }

  lemma OneBlankBetween(a: string, b: string)
    ensures a + ([' '] + b) == a + " " + b
  {
  }

  lemma NextText(texts: seq<string>, clean: string, after: string)
    requires forall i :: 0 <= i < |texts| ==> Clean(texts[i])
    requires Extends(Joined(texts), clean, after)
    ensures after == Joined(texts + if clean == [] then [] else [clean])
  {
    JoinedIsClean(texts);
    if clean == [] {
      assert texts + [] == texts;
    } else {
      JoinedNext(texts, clean);
      if |texts| > 0 {
        assert Separator(Joined(texts)) == [' '];
        OneBlankBetween(Joined(texts), clean);
      }
    }
  }

  lemma NextDelivery(prior: Option<Record>, front: seq<Event>, e: Event)
    requires OnlyDeliveries(front) && e.Deliver? && e.id !in Ids(prior)
    requires Text(prior) == Joined(FirstTexts(front)) && Ids(prior) == Latest(FirstIds(front))
    ensures Ids(After(prior, e)) == Latest(FirstIds(front) + [e.id])
    ensures Text(After(prior, e)) ==
            Joined(FirstTexts(front) + if JsText.IsBlank(e.transcript) then [] else [JsText.Trim(e.transcript)])
  {
    FirstTextsAreClean(front);
    LatestAppends(FirstIds(front), e.id);
    DeliveryExtends(prior, e.id, e.transcript, e.at);
    NextText(FirstTexts(front), JsText.Trim(e.transcript), Text(After(prior, e)));
  }
}
