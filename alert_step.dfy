/**
 * The alert dedup-and-notify step of `index.js`.
 *
 * Each scheduled run receives the alert feed, looks only at its last record,
 * and asks the stored list `alerts` whether some stored alert matches that
 * record (lodash `find` with an object, i.e. a partial match). When none does,
 * the record is appended to the list, the list is written, and then the
 * record's `message` is sent to the fixed channel. When one does, nothing
 * happens.
 *
 * The store is the class `AlertDb`; its `Step` method is proved against the
 * pure transition `Next` and the list of outward actions `Effects`, about
 * which the lemmas below state the properties of the step.
 */
module AlertStep {
  import opened Wrappers

  /** The chat every notification goes to. */
  const ChannelId: int := 44841343

  /** A flat JSON value of an alert record. */
  datatype Value = Null | Bool(b: bool) | Num(n: real) | Str(s: string)

  /** An alert record: a flat JSON object. */
  type Record = map<string, Value>

  /** A message handed to the messaging channel: chat id and text (`None` is `undefined`). */
  datatype Outgoing = Outgoing(chatId: int, text: Option<Value>)

  /** An action visible outside the process, in the order it is issued. */
  datatype Effect =
    | Persisted(snapshot: seq<Record>)  // the alert list written to the database file
    | Sent(message: Outgoing)           // a message passed to the messaging channel

  /** The outcome of one step: the new alert list and the message to send, if any. */
  datatype Transition = Transition(alerts: seq<Record>, out: Option<Outgoing>)

  /**
   * lodash's object matcher: `stored` matches `probe` when it has every
   * property of `probe` with an equal value (extra properties are allowed).
   */
  predicate Matches(stored: Record, probe: Record)
    ensures probe == map[] ==> Matches(stored, probe)
  {
    forall key :: key in probe ==> key in stored && stored[key] == probe[key]
  }

  /** JavaScript property access: `record.key`, `None` when the property is absent. */
  function Field(record: Record, key: string): Option<Value> {
    if key in record then Some(record[key]) else None
  }

  /** lodash `find(probe)` over the stored list: the first stored alert that matches. */
  function Find(alerts: seq<Record>, probe: Record): (r: Option<Record>)
    ensures r.Some? <==> exists i :: 0 <= i < |alerts| && Matches(alerts[i], probe)
    ensures r.Some? ==> exists i ::
                          && 0 <= i < |alerts|
                          && alerts[i] == r.value
                          && Matches(alerts[i], probe)
                          && forall j :: 0 <= j < i ==> !Matches(alerts[j], probe)
  {
    if |alerts| == 0 then None
    else if Matches(alerts[0], probe) then Some(alerts[0])
    else
      var r := Find(alerts[1..], probe);
      assert forall i :: 0 < i < |alerts| ==> alerts[i] == alerts[1..][i - 1];
      r
  }

  /** `data.slice(-1)[0]`: the last record of a non-empty feed. */
  function LastEvent(feed: seq<Record>): (last: Record)
    requires |feed| > 0
    ensures feed == feed[..|feed| - 1] + [last]
  {
    feed[|feed| - 1]
  }

  /** The `inDB` flag: some stored alert matches `event`. */
  predicate InDb(alerts: seq<Record>, event: Record) {
    Find(alerts, event).Some?
  }

  /** `bot.sendMessage(CHANNEL_ID, lastEvent.message)`. */
  function Notification(event: Record): (message: Outgoing)
    ensures message.chatId == ChannelId
    ensures message.text.Some? <==> "message" in event
    ensures message.text.Some? ==> message.text.value == event["message"]
  {
    Outgoing(ChannelId, Field(event, "message"))
  }

  /** The state transition of one run over a non-empty feed. */
  function Next(alerts: seq<Record>, feed: seq<Record>): (t: Transition)
    requires |feed| > 0
    ensures (exists i :: 0 <= i < |alerts| && Matches(alerts[i], feed[|feed| - 1])) ==>
              t == Transition(alerts, None)
    ensures (forall i :: 0 <= i < |alerts| ==> !Matches(alerts[i], feed[|feed| - 1])) ==>
              && t.alerts == alerts + [feed[|feed| - 1]]
              && t.out == Some(Outgoing(ChannelId, Field(feed[|feed| - 1], "message")))
  {
    var lastEvent := LastEvent(feed);
    if InDb(alerts, lastEvent) then Transition(alerts, None)
    else Transition(alerts + [lastEvent], Some(Notification(lastEvent)))
  }

  /** The outward actions of one run, in the order the source issues them. */
  function Effects(alerts: seq<Record>, feed: seq<Record>): (e: seq<Effect>)
    requires |feed| > 0
    ensures e == [] <==> InDb(alerts, feed[|feed| - 1])
    ensures e != [] ==> |e| == 2 && e[0].Persisted? && e[1] == Sent(Notification(feed[|feed| - 1]))
  {
    var t := Next(alerts, feed);
    match t.out
    case None => []
    case Some(message) => [Persisted(t.alerts), Sent(message)]
  }

  /** `db.defaults({ alerts: [] })`: the stored list, or the empty list when there is none. */
  function Defaults(stored: Option<seq<Record>>): (alerts: seq<Record>)
    ensures stored.None? ==> alerts == []
    ensures stored.Some? ==> alerts == stored.value
  {
    stored.GetOr([])
  }

  /** Only the last record of the feed is examined: feeds that end alike step alike. */
  lemma OnlyLastEventMatters(alerts: seq<Record>, feed1: seq<Record>, feed2: seq<Record>)
    requires |feed1| > 0 && |feed2| > 0
    requires feed1[|feed1| - 1] == feed2[|feed2| - 1]
    ensures Next(alerts, feed1) == Next(alerts, feed2)
    ensures Effects(alerts, feed1) == Effects(alerts, feed2)
  {
  }

  /**
   * The list is append-only: earlier entries stay as they were, and the list
   * grows, by one entry, exactly when a message is produced.
   */
  lemma AppendOnly(alerts: seq<Record>, feed: seq<Record>)
    requires |feed| > 0
    ensures var t := Next(alerts, feed);
            |alerts| <= |t.alerts| <= |alerts| + 1 && t.alerts[..|alerts|] == alerts
    ensures var t := Next(alerts, feed);
            |t.alerts| == |alerts| + 1 <==> t.out.Some?
  {
  }

  /** A record always matches itself. */
  lemma MatchesReflexive(r: Record)
    ensures Matches(r, r)
  {
  }

  /** After any step, some stored alert matches the last event. */
  lemma SeenAfterStep(alerts: seq<Record>, feed: seq<Record>)
    requires |feed| > 0
    ensures InDb(Next(alerts, feed).alerts, feed[|feed| - 1])
  {
    var lastEvent := feed[|feed| - 1];
    var after := Next(alerts, feed).alerts;
    if !InDb(alerts, lastEvent) {
      MatchesReflexive(lastEvent);
      assert Matches(after[|after| - 1], lastEvent);
    }
  }

  /** Running the step twice on the same feed dispatches at most once: the second run changes nothing. */
  lemma StepIdempotent(alerts: seq<Record>, feed: seq<Record>)
    requires |feed| > 0
    ensures var once := Next(alerts, feed).alerts;
            Next(once, feed) == Transition(once, None)
    ensures Effects(Next(alerts, feed).alerts, feed) == []
  {
    SeenAfterStep(alerts, feed);
  }

  /**
   * Commit before dispatch: a run either does nothing outside the process or
   * writes the list, already holding the last event, before it sends.
   */
  lemma CommitBeforeDispatch(alerts: seq<Record>, feed: seq<Record>)
    requires |feed| > 0
    ensures var e := Effects(alerts, feed);
            e != [] ==> e[0] == Persisted(alerts + [feed[|feed| - 1]])
    ensures forall i :: 0 <= i < |Effects(alerts, feed)| && Effects(alerts, feed)[i].Sent? ==>
              exists j :: 0 <= j < i && Effects(alerts, feed)[j] == Persisted(Next(alerts, feed).alerts)
    ensures forall s :: Persisted(s) in Effects(alerts, feed) ==> InDb(s, feed[|feed| - 1])
  {
    SeenAfterStep(alerts, feed);
    var e := Effects(alerts, feed);
    if e != [] {
      assert e[0] == Persisted(Next(alerts, feed).alerts);
    }
  }

  /** Restarting the process keeps the stored list: applying the defaults twice is applying them once. */
  lemma DefaultsIdempotent(stored: Option<seq<Record>>)
    ensures Defaults(Some(Defaults(stored))) == Defaults(stored)
  {
  }

  /** No stored alert matches a later one: each alert was unseen when it was appended. */
  predicate Deduplicated(alerts: seq<Record>) {
    forall i, j :: 0 <= i < j < |alerts| ==> !Matches(alerts[i], alerts[j])
  }

  /** A step keeps the store deduplicated: it appends only a record nothing stored matches. */
  lemma NextPreservesDedup(alerts: seq<Record>, feed: seq<Record>)
    requires |feed| > 0
    requires Deduplicated(alerts)
    ensures Deduplicated(Next(alerts, feed).alerts)
  {
  }

  /** In a deduplicated store no alert is stored twice. */
  lemma DedupHasNoDuplicates(alerts: seq<Record>)
    requires Deduplicated(alerts)
    ensures forall i, j :: 0 <= i < j < |alerts| ==> alerts[i] != alerts[j]
  {
  }

  /**
   * A scenario: from an empty store, the feed `[{id: 1, message: "a"}]`
   * dispatches "a"; the same feed again dispatches nothing; the grown feed
   * `[{id: 1, ...}, {id: 2, message: "b"}]` dispatches "b" only.
   */
  lemma TwoFeedScenario()
    ensures var a := map["id" := Num(1.0), "message" := Str("a")];
            var b := map["id" := Num(2.0), "message" := Str("b")];
            var s1 := Next([], [a]);
            var s2 := Next(s1.alerts, [a]);
            var s3 := Next(s2.alerts, [a, b]);
            && s1.out == Some(Outgoing(ChannelId, Some(Str("a"))))
            && s2.out == None
            && s3.out == Some(Outgoing(ChannelId, Some(Str("b"))))
            && s3.alerts == [a, b]
  {
  }

  /** The persisted database: the alert list, and (for the contracts) the outward actions issued so far. */
  class AlertDb {
    var alerts: seq<Record>
    ghost var effects: seq<Effect>

    /** The store invariant: no stored alert matches a later one. */
    predicate Valid()
      reads this
    {
      Deduplicated(alerts)
    }

    /** Opening the database applies `defaults({ alerts: [] })` and writes once. */
    constructor Open(stored: Option<seq<Record>>)
      ensures stored.None? ==> alerts == []
      ensures stored.Some? ==> alerts == stored.value
      ensures effects == [Persisted(alerts)]
      ensures stored.None? ==> Valid()
      ensures stored.Some? ==> (Valid() <==> Deduplicated(stored.value))
    {
      alerts := Defaults(stored);
      effects := [Persisted(Defaults(stored))];
    }

    /** One scheduled run over a fetched, non-empty feed; returns the message sent, if any. */
    method Step(feed: seq<Record>) returns (out: Option<Outgoing>)
      requires |feed| > 0
      modifies this
      ensures alerts == Next(old(alerts), feed).alerts
      ensures out == Next(old(alerts), feed).out
      ensures effects == old(effects) + Effects(old(alerts), feed)
      ensures InDb(old(alerts), feed[|feed| - 1]) ==> alerts == old(alerts) && out == None
      ensures !InDb(old(alerts), feed[|feed| - 1]) ==>
                && alerts == old(alerts) + [feed[|feed| - 1]]
                && out == Some(Notification(feed[|feed| - 1]))
      ensures InDb(alerts, feed[|feed| - 1])
      ensures old(Valid()) ==> Valid()
      ensures old(Valid()) ==> forall i, j :: 0 <= i < j < |alerts| ==> alerts[i] != alerts[j]
    {
      var lastEvent := feed[|feed| - 1];
      var inDb := Find(alerts, lastEvent).Some?;
      if !inDb {
        ghost var before := alerts;
        alerts := alerts + [lastEvent];
        effects := effects + [Persisted(alerts)];
        out := Some(Notification(lastEvent));
        effects := effects + [Sent(out.value)];
        SeenAfterStep(before, feed);
        if Deduplicated(before) {
          NextPreservesDedup(before, feed);
        }
      } else {
        out := None;
      }
      if Valid() {
        DedupHasNoDuplicates(alerts);
      }
    }
  }
}
