/**
 The search box's debounce, over logical time in milliseconds. Every change of
 the typed query replaces the pending timer by one due 300 ms later; when a
 timer falls due, its value becomes the debounced query. A change of the
 debounced query is what starts a search, so `emitted` records those changes.
 */
module Debounce {
  import opened Optional

  const Delay: nat := 300

  datatype Timer = Timer(value: string, due: nat)

  datatype State = State(
    query: string,
    debounced: string,
    pending: Option<Timer>,
    emitted: seq<string>)

  /** Something that happens in the search modal at time `at`: the user edits
      the box to `text`, or the clock reaches `at`. */
  datatype Event = Keystroke(at: nat, text: string) | Tick(at: nat)

  /** The modal mounted at time `at`: the query is empty and the mount itself
      scheduled a timer for it. */
  function Mount(at: nat): (r: State)
    ensures r.query == "" && r.debounced == "" && r.emitted == []
    ensures r.pending.Some? && r.pending.value.due == at + Delay
  {
    State("", "", Some(Timer("", at + Delay)), [])
  }

  /** Lets the clock reach `now`: a pending timer that is due fires. Setting
      the debounced query to the value it already has starts nothing. */
  function Fire(s: State, now: nat): (r: State)
    ensures r.query == s.query
    ensures s.pending.Some? && s.pending.value.due <= now ==>
      && r.debounced == s.pending.value.value && r.pending.None?
      && r.emitted == s.emitted + (if s.pending.value.value != s.debounced then [s.pending.value.value] else [])
    ensures !(s.pending.Some? && s.pending.value.due <= now) ==> r == s
  {
    match s.pending
    case Some(t) =>
      if t.due <= now then
        s.(debounced := t.value, pending := None,
           emitted := if t.value != s.debounced then s.emitted + [t.value] else s.emitted)
      else s
    case None => s
  }

  /** One event. A timer due no later than a keystroke fires before it. An
      edit that leaves the text as it was does not re-run the effect, so it
      keeps the pending timer; any other edit cancels it and starts a new one. */
  function Step(s: State, e: Event): (r: State)
    ensures e.Tick? ==> r == Fire(s, e.at)
    ensures e.Keystroke? ==> r.query == e.text
    ensures e.Keystroke? && e.text != s.query ==> r.pending == Some(Timer(e.text, e.at + Delay))
    ensures e.Keystroke? && e.text != s.query ==> r.emitted == Fire(s, e.at).emitted && r.debounced == Fire(s, e.at).debounced
    ensures e.Keystroke? && e.text == s.query ==> r == Fire(s, e.at)
  {
    var s1 := Fire(s, e.at);
    match e
    case Tick(_) => s1
    case Keystroke(at, text) =>
      if text == s1.query then s1 else s1.(query := text, pending := Some(Timer(text, at + Delay)))
  }

  function Run(s: State, events: seq<Event>): State
    decreases |events|
  {
    if |events| == 0 then s else Run(Step(s, events[0]), events[1..])
  }

  lemma {:induction false} RunAppend(s: State, a: seq<Event>, b: seq<Event>)
    ensures Run(s, a + b) == Run(Run(s, a), b)
    decreases |a|
  {
    if |a| == 0 {
      assert a + b == b;
    } else {
      assert (a + b)[1..] == a[1..] + b;
      RunAppend(Step(s, a[0]), a[1..], b);
    }
  }

  /** A pending timer always carries the current query, and with no timer
      pending the debounced query has caught up with it. */
  ghost predicate Consistent(s: State) {
    if s.pending.Some? then s.pending.value.value == s.query else s.debounced == s.query
  }

  lemma MountConsistent(at: nat)
    ensures Consistent(Mount(at))
  {
  }

  /** The timer the mount schedules fires with the empty query, which is
      already the debounced query, so mounting starts no search. */
  lemma MountStartsNoSearch(at: nat, now: nat)
    ensures Fire(Mount(at), now).emitted == []
    ensures Fire(Mount(at), now).debounced == ""
  {
  }

  /** Every step keeps the state consistent, and whatever a step emits is the
      query as it stood: a superseded value is never emitted. */
  lemma StepConsistent(s: State, e: Event)
    requires Consistent(s)
    ensures Consistent(Step(s, e))
    ensures Step(s, e).emitted == s.emitted || Step(s, e).emitted == s.emitted + [s.query]
  {
  }

  lemma {:induction false} RunConsistent(s: State, events: seq<Event>)
    requires Consistent(s)
    ensures Consistent(Run(s, events))
    ensures |Run(s, events).emitted| >= |s.emitted|
    ensures Run(s, events).emitted[..|s.emitted|] == s.emitted
    decreases |events|
  {
    if |events| > 0 {
      StepConsistent(s, events[0]);
      RunConsistent(Step(s, events[0]), events[1..]);
    }
  }

  /** A burst of edits: each differs from the one before and comes less than
      the delay after it. */
  ghost predicate Burst(ks: seq<Event>) {
    && |ks| > 0
    && (forall i :: 0 <= i < |ks| ==> ks[i].Keystroke?)
    && (forall i :: 0 <= i < |ks| - 1 ==> ks[i].at <= ks[i + 1].at < ks[i].at + Delay)
    && (forall i :: 0 <= i < |ks| - 1 ==> ks[i].text != ks[i + 1].text)
  }

  /** During a burst nothing is emitted; afterwards one timer is pending, for
      the last edit, due the delay after it. */
  lemma {:induction false} BurstHoldsBack(s: State, ks: seq<Event>)
    requires Burst(ks)
    requires s.pending.None? || ks[0].at < s.pending.value.due
    requires ks[0].text != s.query
    ensures Run(s, ks).emitted == s.emitted && Run(s, ks).debounced == s.debounced
    ensures Run(s, ks).query == ks[|ks| - 1].text
    ensures Run(s, ks).pending == Some(Timer(ks[|ks| - 1].text, ks[|ks| - 1].at + Delay))
    decreases |ks|
  {
    var s1 := Step(s, ks[0]);
    assert s1.emitted == s.emitted && s1.debounced == s.debounced && s1.query == ks[0].text;
    assert s1.pending == Some(Timer(ks[0].text, ks[0].at + Delay));
    if |ks| > 1 {
      var rest := ks[1..];
      assert Burst(rest) by {
        assert forall i :: 0 <= i < |rest| ==> rest[i] == ks[i + 1];
      }
      assert ks[0].at <= rest[0].at < ks[0].at + Delay;
      BurstHoldsBack(s1, rest);
    }
  }

  /** A burst followed by quiet until its last edit's timer is due emits
      exactly one value, the last one typed (unless it is already the
      debounced query, when a search is not re-run). */
  lemma BurstEmitsOnlyLast(s: State, ks: seq<Event>, quietUntil: nat)
    requires Burst(ks)
    requires s.pending.None? || ks[0].at < s.pending.value.due
    requires ks[0].text != s.query
    requires quietUntil >= ks[|ks| - 1].at + Delay
    ensures var last := ks[|ks| - 1].text;
      Run(s, ks + [Tick(quietUntil)]).emitted
        == s.emitted + (if last != s.debounced then [last] else [])
    ensures Run(s, ks + [Tick(quietUntil)]).debounced == ks[|ks| - 1].text
  {
    BurstHoldsBack(s, ks);
    RunAppend(s, ks, [Tick(quietUntil)]);
  }

  /** Typing "a", "ab", "abc" within 300 ms of each other starts one search,
      for "abc". */
  lemma QuickTypingStartsOneSearch()
    ensures Run(Mount(0), [Keystroke(400, "a"), Keystroke(500, "ab"), Keystroke(600, "abc"), Tick(1000)]).emitted
      == ["abc"]
  {
  }

  /** Typing "a", pausing 400 ms, then typing "ab" starts two searches. */
  lemma PauseStartsTwoSearches()
    ensures Run(Mount(0), [Keystroke(400, "a"), Tick(800), Keystroke(800, "ab"), Tick(1200)]).emitted
      == ["a", "ab"]
  {
  }
}
