/**
 The hub that streams issue events to subscribers: an audience resolved once per event, bounded buffers
 that drop rather than block, and a handler that re-checks only events without an audience.
 */
module EventHub {
  import opened Options
  import opened Sets
  import opened EventAudience

  const CAPACITY := 16

  /** number is the position among all published events; it orders them and is not sent. */
  datatype Event = Event(number: nat, issue: int, recipients: Option<set<int>>)

  /** owners gives the user of every channel ever live; the open ones are still subscribed. */
  datatype Channels = Channels(owners: map<int, int>, live: set<int>, buffers: map<int, seq<Event>>)

  predicate Addressed(e: Event, user: int) {
    e.recipients.None? || user in e.recipients.value
  }

  ghost predicate WellFormed(c: Channels) {
    c.live <= c.owners.Keys && c.owners.Keys == c.buffers.Keys
  }

  /** The buffers after a broadcast: every open channel of an addressed user gets the event if it has room. */
  function Offered(c: Channels, e: Event): map<int, seq<Event>>
    requires WellFormed(c)
  {
    map ch | ch in c.buffers ::
      if ch in c.live && Addressed(e, c.owners[ch]) && |c.buffers[ch]| < CAPACITY then c.buffers[ch] + [e]
      else c.buffers[ch]
  }

  /** Unsubscribing also drops one event that is still buffered. */
  function Closed(c: Channels, ch: int): Channels
    requires WellFormed(c) && ch in c.live
  {
    Channels(c.owners, c.live - {ch}, c.buffers[ch := if c.buffers[ch] == [] then [] else c.buffers[ch][1..]])
  }

  function Subscribers(c: Channels): set<int>
    requires WellFormed(c)
  {
    set ch | ch in c.live :: c.owners[ch]
  }

  class Hub {
    var owners: map<int, int>
    var live: set<int>
    var buffers: map<int, seq<Event>>
    var next: int

    ghost predicate Valid()
      reads this
    {
      WellFormed(Snapshot()) && forall ch :: ch in owners ==> ch < next
    }

    function Snapshot(): Channels
      reads this
    {
      Channels(owners, live, buffers)
    }

    constructor ()
      ensures Valid() && Snapshot() == Channels(map[], {}, map[])
    {
      owners, live, buffers, next := map[], {}, map[], 0;
    }

    method Subscribe(user: int) returns (ch: int)
      requires Valid()
      modifies this
      ensures Valid() && ch !in old(owners)
      ensures Snapshot() == Channels(old(owners)[ch := user], old(live) + {ch}, old(buffers)[ch := []])
    {
      ch := next;
      next := next + 1;
      owners, live, buffers := owners[ch := user], live + {ch}, buffers[ch := []];
    }

    method Unsubscribe(ch: int)
      requires Valid() && ch in live
      modifies this
      ensures Valid()
      ensures Snapshot() == Closed(old(Snapshot()), ch)
    {
      live := live - {ch};
      if buffers[ch] != [] {
        buffers := buffers[ch := buffers[ch][1..]];
      } else {
        buffers := buffers[ch := []];
      }
    }

    /** The distinct users subscribed. */
    method SubscriberIDs() returns (ids: seq<int>)
      requires Valid()
      ensures forall u :: u in ids <==> u in Subscribers(Snapshot())
      ensures forall i, j :: 0 <= i < j < |ids| ==> ids[i] != ids[j]
    {
      ids := [];
      var seen: set<int> := {};
      var rest := live;
      while rest != {}
        invariant rest <= live && seen == set ch | ch in live - rest :: owners[ch]
        invariant forall u :: u in ids <==> u in seen
        invariant forall i, j :: 0 <= i < j < |ids| ==> ids[i] != ids[j]
        decreases |rest|
      {
        HasMember(rest);
        var ch :| ch in rest;
        if owners[ch] !in seen {
          ids := ids + [owners[ch]];
        }
        OneMoreOwner(owners, live - rest, ch);
        assert live - (rest - {ch}) == live - rest + {ch};
        seen := seen + {owners[ch]};
        rest := rest - {ch};
      }
      assert live - rest == live;
    }

    method Broadcast(e: Event)
      requires Valid()
      modifies this`buffers
      ensures Valid() && buffers == Offered(old(Snapshot()), e)
    {
      var rest := live;
      ghost var before := Snapshot();
      while rest != {}
        invariant rest <= live && buffers.Keys == before.buffers.Keys
        invariant forall ch :: ch in buffers ==>
                    buffers[ch] == (if ch in rest then before.buffers[ch] else Offered(before, e)[ch])
        decreases |rest|
      {
        HasMember(rest);
        var ch :| ch in rest;
        if e.recipients.None? || owners[ch] in e.recipients.value {
          if |buffers[ch]| < CAPACITY {
            buffers := buffers[ch := buffers[ch] + [e]];
          }
        }
        rest := rest - {ch};
      }
      ghost var after := Offered(before, e);
      assert forall ch :: ch in buffers ==> ch in after && buffers[ch] == after[ch];
      assert after.Keys == buffers.Keys;
      assert buffers == after;
    }
  }

  lemma OneMoreOwner(owners: map<int, int>, chs: set<int>, ch: int)
    requires chs <= owners.Keys && ch in owners
    ensures (set c | c in chs + {ch} :: owners[c]) == (set c | c in chs :: owners[c]) + {owners[ch]}
  {
  }

  // ---------- interleaved runs ----------

  /** viewers are the users that the check would have let through when the audience was resolved. */
  datatype Published = Published(event: Event, viewers: set<int>)

  /** viewers are the users that the check would let through when the event was written to the stream. */
  datatype Delivery = Delivery(event: Event, viewers: set<int>)

  /** A broadcast under way: the subscribers are collected, and then their audience is resolved. */
  datatype Call =
    | Collected(issue: int, ids: set<int>)
    | Resolved(issue: int, audience: Option<set<int>>, viewers: set<int>)

  datatype State = State(channels: Channels, directory: Directory, issues: map<int, Issue>,
                         calls: map<int, Call>, published: seq<Published>, streams: map<int, seq<Delivery>>)

  datatype Action =
    | Subscribe(ch: int, user: int)
    | Unsubscribe(ch: int)
    | Change(directory: Directory, issues: map<int, Issue>)
    | CollectIDs(call: int, issue: int)
    | Resolve(call: int, fails: bool)
    | Publish(call: int)
    | Write(ch: int)

  /** The audience of an issue, and its viewers; the query finds nobody for an issue that is not there. */
  ghost function Audience(s: State, issue: int, ids: set<int>): set<int> {
    if issue in s.issues then Recipients(s.directory, s.issues[issue], ids) else {}
  }

  ghost function MayView(s: State, issue: int): set<int> {
    if issue in s.issues then Viewers(s.directory, s.issues[issue]) else {}
  }

  /** The query of broadcast, for the subscribers collected before; without any the event goes out unresolved. */
  ghost function ResolveCall(s: State, call: int): State
    requires call in s.calls && s.calls[call].Collected?
  {
    var c := s.calls[call];
    var audience := if c.ids == {} then None else Some(Audience(s, c.issue, c.ids));
    s.(calls := s.calls[call := Resolved(c.issue, audience, MayView(s, c.issue))])
  }

  /** The event goes to the channels that are open by now. */
  ghost function PublishEvent(s: State, call: int): State
    requires WellFormed(s.channels) && call in s.calls && s.calls[call].Resolved?
  {
    var c := s.calls[call];
    var e := Event(|s.published|, c.issue, c.audience);
    s.(channels := s.channels.(buffers := Offered(s.channels, e)), calls := s.calls - {call},
       published := s.published + [Published(e, c.viewers)])
  }

  /** The stream handler takes one event; one without an audience it shows only to a viewer of the issue. */
  ghost function WriteEvent(s: State, ch: int): State
    requires ch in s.channels.live && ch in s.channels.owners && ch in s.channels.buffers && ch in s.streams
    requires s.channels.buffers[ch] != []
  {
    var e := s.channels.buffers[ch][0];
    var t := s.(channels := s.channels.(buffers := s.channels.buffers[ch := s.channels.buffers[ch][1..]]));
    if e.recipients.Some? || s.channels.owners[ch] in MayView(s, e.issue)
    then t.(streams := s.streams[ch := s.streams[ch] + [Delivery(e, MayView(s, e.issue))]])
    else t
  }

  ghost function Step(s: State, a: Action): State
    requires Good(s)
  {
    match a
    case Subscribe(ch, user) =>
      if ch in s.channels.owners then s
      else s.(channels := Channels(s.channels.owners[ch := user], s.channels.live + {ch}, s.channels.buffers[ch := []]),
              streams := s.streams[ch := []])
    case Unsubscribe(ch) => if ch in s.channels.live then s.(channels := Closed(s.channels, ch)) else s
    case Change(directory, issues) => s.(directory := directory, issues := issues)
    case CollectIDs(call, issue) =>
      if call in s.calls then s else s.(calls := s.calls[call := Collected(issue, Subscribers(s.channels))])
    case Resolve(call, fails) =>
      if call !in s.calls || !s.calls[call].Collected? then s
      else if fails && s.calls[call].ids != {} then s.(calls := s.calls - {call})
      else ResolveCall(s, call)
    case Publish(call) => if call in s.calls && s.calls[call].Resolved? then PublishEvent(s, call) else s
    case Write(ch) => if ch in s.channels.live && s.channels.buffers[ch] != [] then WriteEvent(s, ch) else s
  }

  /** The events written to a stream. */
  function Written(stream: seq<Delivery>): seq<Event> {
    seq(|stream|, k requires 0 <= k < |stream| => stream[k].event)
  }

  /** What a channel got, in order: what was written to its stream and what is still buffered. */
  ghost function Line(s: State, ch: int): seq<Event>
    requires ch in s.streams && ch in s.channels.buffers
  {
    Written(s.streams[ch]) + s.channels.buffers[ch]
  }

  /** Events that were published, each for this user, in the order of publication. */
  ghost predicate InOrder(published: seq<Published>, line: seq<Event>, user: int) {
    && (forall k :: 0 <= k < |line| ==>
          line[k].number < |published| && published[line[k].number].event == line[k] && Addressed(line[k], user))
    && (forall j, k :: 0 <= j < k < |line| ==> line[j].number < line[k].number)
  }

  ghost predicate Good(s: State) {
    && WellFormed(s.channels) && s.streams.Keys == s.channels.owners.Keys
    && (forall ch :: ch in s.channels.owners ==> InOrder(s.published, Line(s, ch), s.channels.owners[ch]))
    && (forall ch :: ch in s.channels.buffers ==> |s.channels.buffers[ch]| <= CAPACITY)
    && (forall n :: 0 <= n < |s.published| ==> s.published[n].event.number == n)
  }

  lemma GrownInOrder(published: seq<Published>, p: Published, line: seq<Event>, user: int)
    requires InOrder(published, line, user)
    ensures InOrder(published + [p], line, user)
    ensures p.event.number == |published| && Addressed(p.event, user) ==>
              InOrder(published + [p], line + [p.event], user)
  {
  }

  lemma PublishKeepsGood(s: State, call: int)
    requires Good(s) && call in s.calls && s.calls[call].Resolved?
    ensures Good(PublishEvent(s, call))
  {
    var t := PublishEvent(s, call);
    var p := t.published[|s.published|];
    forall ch | ch in t.channels.owners ensures InOrder(t.published, Line(t, ch), t.channels.owners[ch]) {
      assert InOrder(s.published, Line(s, ch), s.channels.owners[ch]);
      GrownInOrder(s.published, p, Line(s, ch), s.channels.owners[ch]);
      assert Line(t, ch) == Line(s, ch) || Line(t, ch) == Line(s, ch) + [p.event];
    }
  }

  lemma LeftOut(published: seq<Published>, line: seq<Event>, k: nat, user: int)
    requires InOrder(published, line, user) && k < |line|
    ensures InOrder(published, line[..k] + line[k + 1..], user)
  {
  }

  lemma WriteKeepsGood(s: State, ch: int)
    requires Good(s) && ch in s.channels.live && s.channels.buffers[ch] != []
    ensures Good(WriteEvent(s, ch))
  {
    var t := WriteEvent(s, ch);
    var n := |s.streams[ch]|;
    assert InOrder(s.published, Line(s, ch), s.channels.owners[ch]);
    if |t.streams[ch]| > n {
      assert Line(t, ch) == Line(s, ch);
    } else {
      LeftOut(s.published, Line(s, ch), n, s.channels.owners[ch]);
      assert Line(t, ch) == Line(s, ch)[..n] + Line(s, ch)[n + 1..];
    }
    forall c | c in t.channels.owners && c != ch ensures InOrder(t.published, Line(t, c), t.channels.owners[c]) {
      assert Line(t, c) == Line(s, c);
    }
  }

  lemma CloseKeepsGood(s: State, ch: int)
    requires Good(s) && ch in s.channels.live
    ensures Good(s.(channels := Closed(s.channels, ch)))
  {
    var t := s.(channels := Closed(s.channels, ch));
    var n := |s.streams[ch]|;
    assert InOrder(s.published, Line(s, ch), s.channels.owners[ch]);
    if s.channels.buffers[ch] == [] {
      assert Line(t, ch) == Line(s, ch);
    } else {
      LeftOut(s.published, Line(s, ch), n, s.channels.owners[ch]);
      assert Line(t, ch) == Line(s, ch)[..n] + Line(s, ch)[n + 1..];
    }
    forall c | c in t.channels.owners && c != ch ensures InOrder(t.published, Line(t, c), t.channels.owners[c]) {
      assert Line(t, c) == Line(s, c);
    }
  }

  lemma OthersKeepGood(s: State, a: Action)
    requires Good(s) && !a.Write? && !a.Unsubscribe? && !a.Publish?
    ensures Good(Step(s, a))
  {
    var t := Step(s, a);
    forall c | c in t.channels.owners ensures InOrder(t.published, Line(t, c), t.channels.owners[c]) {
      if c in s.channels.owners { assert Line(t, c) == Line(s, c); }
    }
  }

  lemma StepKeepsGood(s: State, a: Action)
    requires Good(s)
    ensures Good(Step(s, a))
  {
    if a.Publish? {
      if a.call in s.calls && s.calls[a.call].Resolved? { PublishKeepsGood(s, a.call); }
    } else if a.Write? {
      if a.ch in s.channels.live && s.channels.buffers[a.ch] != [] { WriteKeepsGood(s, a.ch); }
    } else if a.Unsubscribe? {
      if a.ch in s.channels.live { CloseKeepsGood(s, a.ch); }
    } else {
      OthersKeepGood(s, a);
    }
  }

  // ---------- what every stream shows ----------

  ghost function Follow(s: State, more: seq<Action>): (t: State)
    requires Good(s)
    ensures Good(t)
  {
    if more == [] then s
    else
      var u := Follow(s, more[..|more| - 1]);
      StepKeepsGood(u, more[|more| - 1]);
      Step(u, more[|more| - 1])
  }

  ghost function Run(directory: Directory, issues: map<int, Issue>, actions: seq<Action>): (s: State)
    ensures Good(s)
  {
    Follow(State(Channels(map[], {}, map[]), directory, issues, map[], [], map[]), actions)
  }

  ghost predicate SitesSet(directory: Directory, issues: map<int, Issue>) {
    && (forall id :: id in directory.users ==> directory.users[id].site != 0)
    && (forall id :: id in issues ==> issues[id].site != 0)
  }

  ghost predicate ChangesKeepSites(actions: seq<Action>) {
    forall k :: 0 <= k < |actions| && actions[k].Change? ==> SitesSet(actions[k].directory, actions[k].issues)
  }

  /** An audience holds viewers only, and what had none was shown to a viewer. */
  ghost predicate Truthful(s: State) {
    && SitesSet(s.directory, s.issues)
    && (forall c :: c in s.calls && s.calls[c].Resolved? && s.calls[c].audience.Some? ==>
          s.calls[c].audience.value <= s.calls[c].viewers)
    && (forall n :: 0 <= n < |s.published| && s.published[n].event.recipients.Some? ==>
          s.published[n].event.recipients.value <= s.published[n].viewers)
    && (forall ch, k :: ch in s.streams && ch in s.channels.owners && 0 <= k < |s.streams[ch]| ==>
          s.streams[ch][k].event.recipients.None? ==> s.channels.owners[ch] in s.streams[ch][k].viewers)
  }

  lemma AudienceIsViewers(s: State, issue: int, ids: set<int>)
    requires SitesSet(s.directory, s.issues)
    ensures Audience(s, issue, ids) == ids * MayView(s, issue)
  {
    if issue in s.issues { BatchIsExact(s.directory, s.issues[issue], ids); }
  }

  lemma WriteKeepsTruth(s: State, ch: int)
    requires Good(s) && Truthful(s) && ch in s.channels.live && s.channels.buffers[ch] != []
    ensures Truthful(WriteEvent(s, ch))
  {
  }

  lemma ResolveKeepsTruth(s: State, call: int)
    requires Good(s) && Truthful(s) && call in s.calls && s.calls[call].Collected?
    ensures Truthful(ResolveCall(s, call))
  {
    AudienceIsViewers(s, s.calls[call].issue, s.calls[call].ids);
  }

  lemma StepKeepsTruth(s: State, a: Action)
    requires Good(s) && Truthful(s) && (a.Change? ==> SitesSet(a.directory, a.issues))
    ensures Truthful(Step(s, a))
  {
    match a
    case Write(ch) => if ch in s.channels.live && s.channels.buffers[ch] != [] { WriteKeepsTruth(s, ch); }
    case Resolve(call, _) => if call in s.calls && s.calls[call].Collected? { ResolveKeepsTruth(s, call); }
    case _ =>
  }

  lemma {:induction false} FollowIsTruthful(s: State, more: seq<Action>)
    requires Good(s) && Truthful(s) && ChangesKeepSites(more)
    ensures Truthful(Follow(s, more))
  {
    if more != [] {
      FollowIsTruthful(s, more[..|more| - 1]);
      StepKeepsTruth(Follow(s, more[..|more| - 1]), more[|more| - 1]);
    }
  }

  /** While all site ids are set, each subscriber's stream is a subsequence of the published events, in their
      order, none twice, and each of an issue its user could view: when the audience was resolved, or, for
      an event published without one, when it was written. */
  lemma EveryStream(directory: Directory, issues: map<int, Issue>, actions: seq<Action>, ch: int)
    requires SitesSet(directory, issues) && ChangesKeepSites(actions)
    ensures ch in Run(directory, issues, actions).streams ==> StreamShows(Run(directory, issues, actions), ch)
  {
    FollowIsTruthful(State(Channels(map[], {}, map[]), directory, issues, map[], [], map[]), actions);
    if ch in Run(directory, issues, actions).streams { TruthfulStream(Run(directory, issues, actions), ch); }
  }

  /** In the order of publication, none twice, and each shown to a viewer. */
  ghost predicate StreamShows(s: State, ch: int)
    requires ch in s.streams
  {
    && ch in s.channels.owners
    && (forall j, k :: 0 <= j < k < |s.streams[ch]| ==> s.streams[ch][j].event.number < s.streams[ch][k].event.number)
    && (forall k :: 0 <= k < |s.streams[ch]| ==> Shown(s, s.streams[ch][k], s.channels.owners[ch]))
  }

  lemma TruthfulStream(s: State, ch: int)
    requires Good(s) && Truthful(s) && ch in s.streams
    ensures StreamShows(s, ch)
  {
    var stream := s.streams[ch];
    var line := Line(s, ch);
    assert InOrder(s.published, line, s.channels.owners[ch]);
    forall k | 0 <= k < |stream| ensures stream[k].event == line[k] {
    }
    forall k | 0 <= k < |stream| ensures Shown(s, stream[k], s.channels.owners[ch]) {
      assert stream[k].event == line[k];
    }
  }

  ghost predicate Shown(s: State, d: Delivery, user: int) {
    && d.event.number < |s.published| && s.published[d.event.number].event == d.event
    && user in (if d.event.recipients.Some? then s.published[d.event.number].viewers else d.viewers)
  }

  /** The audience is exactly the collected subscribers who may view the issue when it is resolved. */
  lemma ResolvesViewers(s: State, call: int)
    requires SitesSet(s.directory, s.issues) && call in s.calls && s.calls[call].Collected? && s.calls[call].ids != {}
    ensures ResolveCall(s, call).calls[call]
            == Resolved(s.calls[call].issue, Some(s.calls[call].ids * MayView(s, s.calls[call].issue)),
                        MayView(s, s.calls[call].issue))
  {
    AudienceIsViewers(s, s.calls[call].issue, s.calls[call].ids);
  }

  // ---------- what a buffer holds ----------

  /** The events published for this user, in order. */
  function AddressedTo(published: seq<Published>, user: int): seq<Event> {
    if published == [] then []
    else
      var e := published[|published| - 1].event;
      AddressedTo(published[..|published| - 1], user) + if Addressed(e, user) then [e] else []
  }

  function FirstFew(events: seq<Event>): seq<Event> {
    if |events| <= CAPACITY then events else events[..CAPACITY]
  }

  /** Nothing is taken from the channel, which stays open. */
  predicate Unread(more: seq<Action>, ch: int) {
    forall k :: 0 <= k < |more| ==> more[k] != Write(ch) && more[k] != Unsubscribe(ch)
  }

  /** One more event is published, or none, and a buffer takes it if it is for the user and there is room. */
  predicate Gets(published: seq<Published>, more: seq<Published>, user: int, before: seq<Event>, after: seq<Event>) {
    if more == published then after == before
    else
      && |more| == |published| + 1 && published <= more
      && var e := more[|published|].event;
         after == if Addressed(e, user) && |before| < CAPACITY then before + [e] else before
  }

  lemma StepUnread(s: State, a: Action, ch: int)
    requires Good(s) && ch in s.channels.live && a != Write(ch) && a != Unsubscribe(ch)
    ensures var t, user := Step(s, a), s.channels.owners[ch];
            && ch in t.channels.live && t.channels.owners[ch] == user
            && Gets(s.published, t.published, user, s.channels.buffers[ch], t.channels.buffers[ch])
  {
    if a.Publish? && a.call in s.calls && s.calls[a.call].Resolved? {
      assert |Step(s, a).published| == |s.published| + 1;
    } else {
      assert Step(s, a).published == s.published;
    }
  }

  lemma {:induction false} OneMorePublished(published: seq<Published>, more: seq<Published>, user: int)
    requires published <= more && |more| == |published| + 1
    ensures AddressedTo(more, user)
            == AddressedTo(published, user)
               + if Addressed(more[|published|].event, user) then [more[|published|].event] else []
  {
    assert more[..|more| - 1] == published;
  }

  /** The first few of what was held and what has been published since. */
  predicate Holds(held: seq<Event>, published: seq<Published>, n: nat, user: int, buffer: seq<Event>)
    requires n <= |published|
  {
    buffer == FirstFew(held + AddressedTo(published[n..], user))
  }

  lemma {:induction false} GetsHolds(held: seq<Event>, published: seq<Published>, more: seq<Published>, n: nat,
                                     user: int, before: seq<Event>, after: seq<Event>)
    requires n <= |published| && Holds(held, published, n, user, before) && Gets(published, more, user, before, after)
    ensures n <= |more| && Holds(held, more, n, user, after)
  {
    if more != published {
      OneMorePublished(published[n..], more[n..], user);
      var e := more[|published|].event;
      var all := held + AddressedTo(published[n..], user);
      if Addressed(e, user) {
        assert held + AddressedTo(more[n..], user) == all + [e];
      }
    }
  }

  /** However an open channel's user is kept from reading, the buffer holds exactly the first sixteen of what it
      held and what has been published for the user since, in that order; the rest is lost, and nothing else. */
  lemma {:induction false} BetweenReads(s: State, more: seq<Action>, ch: int)
    requires Good(s) && ch in s.channels.live && Unread(more, ch)
    ensures var t, user := Follow(s, more), s.channels.owners[ch];
            && ch in t.channels.live && t.channels.owners[ch] == user && s.published <= t.published
            && Holds(s.channels.buffers[ch], t.published, |s.published|, user, t.channels.buffers[ch])
  {
    var held, n, user := s.channels.buffers[ch], |s.published|, s.channels.owners[ch];
    if more == [] {
      assert s.published[n..] == [];
      assert held + AddressedTo([], user) == held;
    } else {
      var u, t := Follow(s, more[..|more| - 1]), Follow(s, more);
      BetweenReads(s, more[..|more| - 1], ch);
      StepUnread(u, more[|more| - 1], ch);
      GetsHolds(held, u.published, t.published, n, user, u.channels.buffers[ch], t.channels.buffers[ch]);
    }
  }

  // ---------- from publication to the stream ----------

  /** The events but for those with these numbers. */
  function Without(events: seq<Event>, missed: set<nat>): seq<Event> {
    if events == [] then []
    else
      var last := events[|events| - 1];
      Without(events[..|events| - 1], missed) + if last.number in missed then [] else [last]
  }

  /** The event about to be published, if it meets a full buffer of the channel, and the event about to be taken from
      the buffer, if it has no audience and the user may not view its issue. */
  ghost function MissedAt(s: State, a: Action, ch: int): set<nat>
    requires Good(s)
  {
    if ch !in s.channels.owners then {}
    else
      match a
      case Publish(call) =>
        if call in s.calls && s.calls[call].Resolved? && |s.channels.buffers[ch]| == 16 then {|s.published|} else {}
      case Write(c) =>
        if c == ch && s.channels.buffers[ch] != [] then
          var e := s.channels.buffers[ch][0];
          if e.recipients.None? && s.channels.owners[ch] !in MayView(s, e.issue) then {e.number} else {}
        else {}
      case _ => {}
  }

  /** What a channel misses during a run. */
  ghost function Missed(s: State, more: seq<Action>, ch: int): set<nat>
    requires Good(s)
  {
    if more == [] then {}
    else
      Missed(s, more[..|more| - 1], ch) + MissedAt(Follow(s, more[..|more| - 1]), more[|more| - 1], ch)
  }

  lemma {:induction false} WithoutConcat(a: seq<Event>, b: seq<Event>, missed: set<nat>)
    ensures Without(a + b, missed) == Without(a, missed) + Without(b, missed)
  {
    if b == [] {
      assert a + b == a;
    } else {
      assert (a + b)[..|a + b| - 1] == a + b[..|b| - 1];
      WithoutConcat(a, b[..|b| - 1], missed);
    }
  }

  lemma {:induction false} WithoutOthers(events: seq<Event>, missed: set<nat>)
    requires forall e :: e in events ==> e.number !in missed
    ensures Without(events, missed) == events
  {
    if events != [] {
      WithoutOthers(events[..|events| - 1], missed);
      assert events == events[..|events| - 1] + [events[|events| - 1]];
    }
  }

  lemma {:induction false} WithoutOne(e: Event, missed: set<nat>)
    ensures Without([e], missed) == if e.number in missed then [] else [e]
  {
    assert Without([], missed) == [];
  }

  lemma {:induction false} WithoutTwice(events: seq<Event>, missed: set<nat>, more: set<nat>)
    ensures Without(events, missed + more) == Without(Without(events, missed), more)
  {
    if events != [] {
      var before, last := events[..|events| - 1], events[|events| - 1];
      WithoutTwice(before, missed, more);
      WithoutConcat(Without(before, missed), if last.number in missed then [] else [last], more);
      WithoutOne(last, more);
    }
  }

  lemma {:induction false} WithoutMiddle(a: seq<Event>, e: Event, b: seq<Event>, one: set<nat>)
    requires one == {e.number} && (forall x :: x in a ==> x.number !in one) && forall x :: x in b ==> x.number !in one
    ensures Without(a + [e] + b, one) == a + b
  {
    WithoutConcat(a + [e], b, one);
    WithoutConcat(a, [e], one);
    WithoutOne(e, one);
    WithoutOthers(a, one);
    WithoutOthers(b, one);
    assert a + [] == a;
  }

  /** Taking one event out of a line in which no number comes twice. */
  lemma {:induction false} WithoutThat(line: seq<Event>, k: nat)
    requires k < |line| && forall i, j :: 0 <= i < j < |line| ==> line[i].number < line[j].number
    ensures Without(line, {line[k].number}) == line[..k] + line[k + 1..]
  {
    assert line == line[..k] + [line[k]] + line[k + 1..];
    WithoutMiddle(line[..k], line[k], line[k + 1..], {line[k].number});
  }

  /** The channel stays open. */
  predicate StaysOpen(more: seq<Action>, ch: int) {
    forall k :: 0 <= k < |more| ==> more[k] != Unsubscribe(ch)
  }

  /** Nothing happens to the line of a channel, or one event of it is kept back. */
  predicate Keeps(before: seq<Event>, after: seq<Event>, missed: set<nat>) {
    || (missed == {} && after == before)
    || (exists k: nat :: k < |before| && missed == {before[k].number} && after == before[..k] + before[k + 1..])
  }

  /** An event is published, and added to the line if it is for the user and not missed. */
  predicate Adds(published: seq<Published>, more: seq<Published>, user: int, before: seq<Event>, after: seq<Event>,
                 missed: set<nat>)
  {
    && |more| == |published| + 1 && published <= more
    && var e := more[|published|].event;
       && e.number == |published| && missed <= {e.number}
       && after == before + if Addressed(e, user) && missed == {} then [e] else []
  }

  lemma {:induction false} WriteKeeps(s: State, ch: int)
    requires Good(s) && ch in s.channels.live && s.channels.buffers[ch] != []
    ensures Keeps(Line(s, ch), Line(WriteEvent(s, ch), ch), MissedAt(s, Write(ch), ch))
  {
    var t, n, line := WriteEvent(s, ch), |s.streams[ch]|, Line(s, ch);
    assert line[n] == s.channels.buffers[ch][0];
    if MissedAt(s, Write(ch), ch) == {} {
      assert Line(t, ch) == line;
    } else {
      assert Line(t, ch) == line[..n] + line[n + 1..];
    }
  }

  lemma {:induction false} PublishAdds(s: State, call: int, ch: int)
    requires Good(s) && ch in s.channels.live && call in s.calls && s.calls[call].Resolved?
    ensures var t := PublishEvent(s, call);
            Adds(s.published, t.published, s.channels.owners[ch], Line(s, ch), Line(t, ch),
                 MissedAt(s, Publish(call), ch))
  {
  }

  lemma {:induction false} OthersKeep(s: State, a: Action, ch: int)
    requires Good(s) && ch in s.channels.live && a != Unsubscribe(ch) && a != Write(ch)
    requires a.Publish? ==> !(a.call in s.calls && s.calls[a.call].Resolved?)
    ensures var t := Step(s, a); t.published == s.published && Line(t, ch) == Line(s, ch) && MissedAt(s, a, ch) == {}
  {
  }

  lemma {:induction false} StepKeepsOpen(s: State, a: Action, ch: int)
    requires Good(s) && ch in s.channels.live && a != Unsubscribe(ch)
    ensures ch in Step(s, a).channels.live && Step(s, a).channels.owners[ch] == s.channels.owners[ch]
  {
  }

  /** All that was published for the user since the n-th event, but for what was missed. */
  ghost predicate Arrived(line: seq<Event>, published: seq<Published>, n: nat, user: int, missed: set<nat>) {
    && n <= |published| && line == Without(AddressedTo(published[n..], user), missed)
    && forall m :: m in missed ==> m < |published|
  }

  lemma {:induction false} KeepsArrived(published: seq<Published>, n: nat, user: int, before: seq<Event>,
                                        after: seq<Event>, missed: set<nat>, now: set<nat>)
    requires InOrder(published, before, user) && Keeps(before, after, now)
    requires Arrived(before, published, n, user, missed)
    ensures Arrived(after, published, n, user, missed + now)
  {
    WithoutTwice(AddressedTo(published[n..], user), missed, now);
    if now == {} {
      WithoutOthers(before, now);
    } else {
      var k: nat :| k < |before| && now == {before[k].number} && after == before[..k] + before[k + 1..];
      WithoutThat(before, k);
    }
  }

  lemma {:induction false} AddressedAre(published: seq<Published>, user: int)
    ensures forall e :: e in AddressedTo(published, user) ==> exists p :: p in published && p.event == e
  {
    if published != [] {
      AddressedAre(published[..|published| - 1], user);
      assert published[|published| - 1] in published;
    }
  }

  lemma {:induction false} WithoutLast(all: seq<Event>, last: seq<Event>, missed: set<nat>, now: set<nat>)
    requires forall x :: x in all ==> x.number !in now
    ensures Without(all + last, missed + now) == Without(all, missed) + Without(last, missed + now)
  {
    WithoutConcat(all, last, missed + now);
    WithoutTwice(all, now, missed);
    WithoutOthers(all, now);
    assert now + missed == missed + now;
  }

  lemma {:induction false} LastGained(e: Event, isFor: bool, missed: set<nat>, now: set<nat>)
    requires e.number !in missed && now <= {e.number}
    ensures Without(if isFor then [e] else [], missed + now) == if isFor && now == {} then [e] else []
  {
    WithoutOne(e, missed + now);
    assert Without([], missed + now) == [];
  }

  lemma {:induction false} EarlierNumbers(published: seq<Published>, n: nat, user: int)
    requires n <= |published| && forall k :: 0 <= k < |published| ==> published[k].event.number == k
    ensures forall x :: x in AddressedTo(published[n..], user) ==> x.number < |published|
  {
    AddressedAre(published[n..], user);
  }

  lemma {:induction false} OneMoreSince(published: seq<Published>, more: seq<Published>, n: nat, user: int)
    requires n <= |published| && published <= more && |more| == |published| + 1
    ensures var e := more[|published|].event;
            AddressedTo(more[n..], user)
            == AddressedTo(published[n..], user) + if Addressed(e, user) then [e] else []
  {
    assert more[n..][|published| - n] == more[|published|];
    OneMorePublished(published[n..], more[n..], user);
  }

  lemma {:induction false} AddsArrived(published: seq<Published>, more: seq<Published>, n: nat, user: int,
                                       before: seq<Event>, after: seq<Event>, missed: set<nat>, now: set<nat>)
    requires forall k :: 0 <= k < |published| ==> published[k].event.number == k
    requires Adds(published, more, user, before, after, now) && Arrived(before, published, n, user, missed)
    ensures Arrived(after, more, n, user, missed + now)
  {
    var e, all := more[|published|].event, AddressedTo(published[n..], user);
    OneMoreSince(published, more, n, user);
    EarlierNumbers(published, n, user);
    forall x | x in all ensures x.number !in now { assert x.number < e.number; }
    WithoutLast(all, if Addressed(e, user) then [e] else [], missed, now);
    LastGained(e, Addressed(e, user), missed, now);
  }

  lemma {:induction false} StepArrives(s: State, a: Action, ch: int, n: nat, missed: set<nat>)
    requires Good(s) && ch in s.channels.live && a != Unsubscribe(ch)
    requires Arrived(Line(s, ch), s.published, n, s.channels.owners[ch], missed)
    ensures var t := Step(s, a);
            && ch in t.streams && ch in t.channels.buffers
            && Arrived(Line(t, ch), t.published, n, s.channels.owners[ch], missed + MissedAt(s, a, ch))
  {
    var t, user, now := Step(s, a), s.channels.owners[ch], MissedAt(s, a, ch);
    StepKeepsGood(s, a);
    StepKeepsOpen(s, a, ch);
    if a == Write(ch) && s.channels.buffers[ch] != [] {
      WriteKeeps(s, ch);
      KeepsArrived(s.published, n, user, Line(s, ch), Line(t, ch), missed, now);
    } else if a == Write(ch) {
      assert missed + now == missed;
    } else if a.Publish? && a.call in s.calls && s.calls[a.call].Resolved? {
      PublishAdds(s, a.call, ch);
      AddsArrived(s.published, t.published, n, user, Line(s, ch), Line(t, ch), missed, now);
    } else {
      OthersKeep(s, a, ch);
      assert missed + now == missed;
    }
  }

  lemma {:induction false} RunArrives(s: State, more: seq<Action>, ch: int)
    requires Good(s) && ch in s.channels.live && StaysOpen(more, ch) && Line(s, ch) == []
    ensures var t, user := Follow(s, more), s.channels.owners[ch];
            && ch in t.channels.live && t.channels.owners[ch] == user
            && Arrived(Line(t, ch), t.published, |s.published|, user, Missed(s, more, ch))
  {
    if more == [] {
      assert s.published[|s.published|..] == [];
    } else {
      var before, a := more[..|more| - 1], more[|more| - 1];
      RunArrives(s, before, ch);
      StepArrives(Follow(s, before), a, ch, |s.published|, Missed(s, before, ch));
      StepKeepsOpen(Follow(s, before), a, ch);
    }
  }

  lemma {:induction false} SubscribedIsEmpty(s: State, ch: int, user: int)
    requires Good(s) && ch !in s.channels.owners
    ensures var u := Step(s, Subscribe(ch, user));
            && Good(u) && ch in u.channels.live && u.channels.owners[ch] == user && u.published == s.published
            && Line(u, ch) == []
  {
    StepKeepsGood(s, Subscribe(ch, user));
  }

  /** From its subscription on, while a channel stays open, what has been written to its stream followed by what is
      buffered is exactly what has been published for its user since, in order, but for the events that met a full
      buffer, and those without an audience whose user could not view them when they were taken. */
  lemma {:induction false} StreamGetsAll(s: State, ch: int, user: int, more: seq<Action>)
    requires Good(s) && ch !in s.channels.owners && StaysOpen(more, ch)
    ensures var u := Step(s, Subscribe(ch, user));
            var t := Follow(u, more);
            && ch in t.streams && ch in t.channels.buffers && |s.published| <= |t.published|
            && Written(t.streams[ch]) + t.channels.buffers[ch]
               == Without(AddressedTo(t.published[|s.published|..], user), Missed(u, more, ch))
  {
    var u := Step(s, Subscribe(ch, user));
    SubscribedIsEmpty(s, ch, user);
    RunArrives(u, more, ch);
  }

  /** No event meets a full buffer of the channel. */
  ghost predicate NeverFull(s: State, more: seq<Action>, ch: int)
    requires Good(s)
  {
    more == []
    || (NeverFull(s, more[..|more| - 1], ch)
        && (more[|more| - 1].Publish? ==> MissedAt(Follow(s, more[..|more| - 1]), more[|more| - 1], ch) == {}))
  }

  ghost predicate AllHaveAudience(published: seq<Published>) {
    forall p :: p in published ==> p.event.recipients.Some?
  }

  lemma StepPublishes(s: State, a: Action)
    requires Good(s)
    ensures s.published <= Step(s, a).published
  {
  }

  lemma {:induction false} FollowPublishes(s: State, more: seq<Action>)
    requires Good(s)
    ensures s.published <= Follow(s, more).published
  {
    if more != [] {
      FollowPublishes(s, more[..|more| - 1]);
      StepPublishes(Follow(s, more[..|more| - 1]), more[|more| - 1]);
    }
  }

  lemma {:induction false} NothingMissedNow(s: State, a: Action, ch: int, n: nat)
    requires Good(s) && ch in s.channels.live && n <= |s.published| && AllHaveAudience(s.published[n..])
    requires Line(s, ch) == AddressedTo(s.published[n..], s.channels.owners[ch])
    requires a.Publish? ==> MissedAt(s, a, ch) == {}
    ensures MissedAt(s, a, ch) == {}
  {
    if a == Write(ch) && s.channels.buffers[ch] != [] {
      var e := s.channels.buffers[ch][0];
      assert Line(s, ch)[|s.streams[ch]|] == e;
      assert e in AddressedTo(s.published[n..], s.channels.owners[ch]);
      AddressedAre(s.published[n..], s.channels.owners[ch]);
    }
  }

  lemma {:induction false} FewerHaveAudience(fewer: seq<Published>, all: seq<Published>, n: nat)
    requires n <= |fewer| && fewer <= all && AllHaveAudience(all[n..])
    ensures AllHaveAudience(fewer[n..])
  {
    forall p | p in fewer[n..] ensures p.event.recipients.Some? {
      var k :| 0 <= k < |fewer[n..]| && fewer[n..][k] == p;
      assert all[n..][k] == p;
    }
  }

  lemma {:induction false} NothingMissed(s: State, more: seq<Action>, ch: int)
    requires Good(s) && ch in s.channels.live && StaysOpen(more, ch) && Line(s, ch) == [] && NeverFull(s, more, ch)
    requires |s.published| <= |Follow(s, more).published|
    requires AllHaveAudience(Follow(s, more).published[|s.published|..])
    ensures Missed(s, more, ch) == {}
  {
    if more != [] {
      var before, a, n := more[..|more| - 1], more[|more| - 1], |s.published|;
      var u := Follow(s, before);
      FollowPublishes(s, before);
      StepPublishes(u, a);
      FewerHaveAudience(u.published, Follow(s, more).published, n);
      NothingMissed(s, before, ch);
      RunArrives(s, before, ch);
      WithoutOthers(AddressedTo(u.published[n..], s.channels.owners[ch]), {});
      NothingMissedNow(u, a, ch, n);
    }
  }

  /** So while a channel stays open and never meets a seventeenth event, every event published for its user with an
      audience is written to its stream or still in its buffer, in order and once. */
  lemma {:induction false} NothingIsLost(s: State, ch: int, user: int, more: seq<Action>)
    requires Good(s) && ch !in s.channels.owners && StaysOpen(more, ch)
    requires var u := Step(s, Subscribe(ch, user));
             NeverFull(u, more, ch) && |s.published| <= |Follow(u, more).published|
             && AllHaveAudience(Follow(u, more).published[|s.published|..])
    ensures var t := Follow(Step(s, Subscribe(ch, user)), more);
            && ch in t.streams && ch in t.channels.buffers && |s.published| <= |t.published|
            && Written(t.streams[ch]) + t.channels.buffers[ch] == AddressedTo(t.published[|s.published|..], user)
  {
    var u := Step(s, Subscribe(ch, user));
    SubscribedIsEmpty(s, ch, user);
    RunArrives(u, more, ch);
    NothingMissed(u, more, ch);
    WithoutOthers(AddressedTo(Follow(u, more).published[|s.published|..], user), {});
  }

  // ---------- from the broadcast to the event ----------

  /** No action of the run is of this call. */
  predicate NotOf(more: seq<Action>, call: int) {
    forall k :: 0 <= k < |more| ==>
      !(more[k].CollectIDs? && more[k].call == call) && !(more[k].Resolve? && more[k].call == call)
      && !(more[k].Publish? && more[k].call == call)
  }

  lemma StepLeavesCall(s: State, a: Action, call: int)
    requires Good(s) && call in s.calls && NotOf([a], call)
    ensures call in Step(s, a).calls && Step(s, a).calls[call] == s.calls[call]
  {
    assert [a][0] == a;
  }

  lemma {:induction false} FollowLeavesCall(s: State, more: seq<Action>, call: int)
    requires Good(s) && call in s.calls && NotOf(more, call)
    ensures call in Follow(s, more).calls && Follow(s, more).calls[call] == s.calls[call]
  {
    if more != [] {
      FollowLeavesCall(s, more[..|more| - 1], call);
      StepLeavesCall(Follow(s, more[..|more| - 1]), more[|more| - 1], call);
    }
  }

  /** The three steps of one broadcast, with anything in between. */
  ghost function Broadcasting(s: State, call: int, issue: int, a: seq<Action>, b: seq<Action>): (State, State, State)
    requires Good(s)
  {
    StepKeepsGood(s, CollectIDs(call, issue));
    var u := Follow(Step(s, CollectIDs(call, issue)), a);
    StepKeepsGood(u, Resolve(call, false));
    var v := Follow(Step(u, Resolve(call, false)), b);
    (u, v, Step(v, Publish(call)))
  }

  /** A broadcast whose look-up does not fail publishes one event of its issue, with an audience, and whoever was
      subscribed when it began is addressed by it exactly if they may view the issue when the audience is resolved,
      whatever happens in between. */
  lemma {:induction false} BroadcastAddresses(s: State, call: int, issue: int, ch: int, a: seq<Action>, b: seq<Action>)
    requires Good(s) && ch in s.channels.live && call !in s.calls && NotOf(a, call) && NotOf(b, call)
    requires var u := Broadcasting(s, call, issue, a, b).0; SitesSet(u.directory, u.issues)
    ensures var (u, v, t) := Broadcasting(s, call, issue, a, b);
            && |t.published| == |v.published| + 1 && v.published <= t.published
            && var e := t.published[|v.published|].event;
               && e.issue == issue && e.recipients.Some?
               && (Addressed(e, s.channels.owners[ch]) <==> s.channels.owners[ch] in MayView(u, issue))
  {
    var s1 := Step(s, CollectIDs(call, issue));
    var user := s.channels.owners[ch];
    StepKeepsGood(s, CollectIDs(call, issue));
    assert user in s1.calls[call].ids;
    FollowLeavesCall(s1, a, call);
    var (u, v, t) := Broadcasting(s, call, issue, a, b);
    var u1 := Step(u, Resolve(call, false));
    StepKeepsGood(u, Resolve(call, false));
    ResolvesViewers(u, call);
    FollowLeavesCall(u1, b, call);
  }

  /** A broadcast whose look-up fails reaches nobody: nothing is published for it any more. */
  lemma {:induction false} FailedBroadcastIsSilent(s: State, call: int, b: seq<Action>)
    requires Good(s) && call in s.calls && s.calls[call].Collected? && s.calls[call].ids != {} && NotOf(b, call)
    ensures var v := Follow(Step(s, Resolve(call, true)), b); Step(v, Publish(call)) == v
  {
    StepKeepsGood(s, Resolve(call, true));
    StaysForgotten(Step(s, Resolve(call, true)), b, call);
  }

  lemma {:induction false} StaysForgotten(s: State, more: seq<Action>, call: int)
    requires Good(s) && call !in s.calls && NotOf(more, call)
    ensures call !in Follow(s, more).calls
  {
    if more != [] {
      StaysForgotten(s, more[..|more| - 1], call);
      StepForgets(Follow(s, more[..|more| - 1]), more[|more| - 1], call);
    }
  }

  lemma StepForgets(s: State, a: Action, call: int)
    requires Good(s) && call !in s.calls && !(a.CollectIDs? && a.call == call)
    ensures call !in Step(s, a).calls
  {
  }
}
