/** Live events of one Run over a lossy broadcast channel: the store is the source of truth, and a
    notification, or the news of having missed some, only says when to look again. */
module Subscription {

  /** One broadcast: whether it is about the subscribed Run. */
  datatype Notification = Notification(mine: bool)

  /** The channel keeps the latest `capacity` notifications; a receiver further behind has lagged. */
  datatype Channel = Channel(capacity: nat, sent: seq<Notification>, closed: bool)
  {
    function Oldest(): nat { if |sent| > capacity then |sent| - capacity else 0 }
  }

  datatype Received = Message(mine: bool) | Lagged | Closed | Blocked

  function Receive(channel: Channel, position: nat): (Received, nat) {
    if position < channel.Oldest() then (Lagged, channel.Oldest())
    else if position < |channel.sent| then (Message(channel.sent[position].mine), position + 1)
    else (if channel.closed then Closed else Blocked, position)
  }

  /** A receiver reads what is kept in order and skips only what is not kept any more, of which it is told. */
  lemma ReceivesInOrder(channel: Channel, position: nat)
    requires position <= |channel.sent|
    ensures var oldest := if |channel.sent| > channel.capacity then |channel.sent| - channel.capacity else 0;
            var (received, next) := Receive(channel, position);
            if position < oldest then received.Lagged? && next == oldest
            else if position < |channel.sent|
            then received == Message(channel.sent[position].mine) && next == position + 1
            else next == position && (if channel.closed then received.Closed? else received.Blocked?)
  {
  }

  /** The sequence numbers from one to another, both included. */
  function Between(first: nat, last: nat): (numbers: seq<nat>)
    ensures |numbers| == if first <= last then last - first + 1 else 0
    ensures forall i | 0 <= i < |numbers| :: numbers[i] == first + i
    decreases last + 1 - first
  {
    if first > last then [] else [first] + Between(first + 1, last)
  }

  lemma BetweenExtends(first: nat, last: nat)
    requires first <= last + 1
    ensures Between(first, last + 1) == Between(first, last) + [last + 1]
  {
  }

  lemma BetweenPops(first: nat, last: nat)
    requires first <= last
    ensures Between(first, last)[0] == first && Between(first, last)[1..] == Between(first + 1, last)
  {
  }

  /** Something on the channel will make a receiver at this position look at the store again. */
  ghost predicate Unread(channel: Channel, position: nat) {
    || position < channel.Oldest()
    || (exists i | position <= i < |channel.sent| :: channel.sent[i].mine)
  }

  /** Skipping a notification about another Run misses nothing. */
  lemma SkippingKeepsUnread(channel: Channel, position: nat)
    requires channel.Oldest() <= position < |channel.sent| && !channel.sent[position].mine
    ensures Unread(channel, position) <==> Unread(channel, position + 1)
  {
  }

  // ---------- the subscription object ----------

  /** The stored events after a sequence number: a Run's log holds the numbers 1..count. */
  function LoadEvents(count: nat, after: nat): seq<nat> {
    Between(after + 1, count)
  }

  datatype NextEvent = Event(sequence: nat) | ChannelClosed | WouldWait | LoadFailed

  class EventSubscription {
    var cursor: nat
    var pending: seq<nat>
    var position: nat

    /** The receiver subscribes before the stored events are loaded. */
    constructor (channel: Channel, count: nat, after: nat)
      ensures cursor == after && position == |channel.sent| && Fits(channel, count)
      ensures pending == LoadEvents(count, after)
    {
      cursor := after;
      position := |channel.sent|;
      pending := LoadEvents(count, after);
    }

    /** What waits to be delivered continues the cursor without a gap. */
    ghost predicate Fits(channel: Channel, count: nat)
      reads this
    {
      && position <= |channel.sent|
      && pending == Between(cursor + 1, cursor + |pending|)
      && (pending != [] ==> cursor + |pending| <= count)
    }

    /** Reads the channel once. */
    method Hear(channel: Channel) returns (received: Received)
      requires position <= |channel.sent|
      modifies this`position
      ensures old(position) <= position <= |channel.sent|
      ensures received.Message? || received.Lagged? ==> old(position) < position
      ensures received.Closed? || received.Blocked? ==>
                position == old(position) == |channel.sent| && !Unread(channel, position)
      ensures received.Closed? ==> channel.closed
      ensures received == Message(false) ==> (Unread(channel, position) <==> Unread(channel, old(position)))
    {
      var outcome := Receive(channel, position);
      if outcome.0 == Message(false) { SkippingKeepsUnread(channel, position); }
      received, position := outcome.0, outcome.1;
    }

    /** Looks at the store again, which may fail; the queue is empty when this happens. */
    method Reload(channel: Channel, count: nat, succeeds: bool) returns (loaded: bool)
      requires Fits(channel, count) && pending == []
      modifies this`pending
      ensures loaded == succeeds && Fits(channel, count)
      ensures if loaded then cursor + |pending| >= count else pending == []
    {
      if succeeds { pending := pending + LoadEvents(count, cursor); }
      loaded := succeeds;
    }

    /** Delivers the first event of the queue. */
    method Deliver(channel: Channel, count: nat) returns (event: nat)
      requires Fits(channel, count) && pending != []
      modifies this`pending, this`cursor
      ensures Fits(channel, count) && event == cursor == old(cursor) + 1
    {
      BetweenPops(cursor + 1, cursor + |pending|);
      cursor, pending := pending[0], pending[1..];
      event := cursor;
    }

    /** One call while the store and the channel stand still, with the outcomes of the loads it may make.
        It delivers exactly the next event. It waits only when it has read every notification and has none
        to deliver, and then, if there was any news of this Run, everything stored has been delivered;
        likewise when the channel closed. A load that fails ends the call: nothing is delivered or queued,
        and what made it look is used up, unless the channel has closed. */
    method Next(channel: Channel, count: nat, outcomes: seq<bool>) returns (result: NextEvent)
      requires Fits(channel, count)
      modifies this
      ensures Fits(channel, count) && old(position) <= position
      ensures result.Event? ==> result.sequence == old(cursor) + 1 && cursor == result.sequence
      ensures !result.Event? ==> cursor == old(cursor) && pending == []
      ensures old(pending) != [] ==> result.Event?
      ensures result.WouldWait? || result.ChannelClosed? ==> position == |channel.sent|
      ensures result.ChannelClosed? ==> cursor >= count
      ensures result.WouldWait? && Unread(channel, old(position)) ==> cursor >= count
      ensures result.LoadFailed? ==>
                false in outcomes && (old(position) < position || (channel.closed && position == |channel.sent|))
    {
      ghost var looked := false;
      var loads := 0;
      while true
        invariant Fits(channel, count) && old(position) <= position && cursor == old(cursor)
        invariant looked ==> cursor + |pending| >= count
        invariant old(pending) != [] ==> pending != []
        invariant !looked ==> (Unread(channel, old(position)) <==> Unread(channel, position))
        decreases |channel.sent| - position, if pending == [] then 1 else 0
      {
        if pending != [] {
          var event := Deliver(channel, count);
          return Event(event);
        }
        var received := Hear(channel);
        if received.Blocked? { return WouldWait; }
        if received != Message(false) {
          var loaded := Reload(channel, count, loads >= |outcomes| || outcomes[loads]);
          if !loaded { return LoadFailed; }
          loads := loads + 1;
          looked := true;
          if received.Closed? && pending == [] { return ChannelClosed; }
        }
      }
    }
  }

  // ---------- every interleaving ----------

  /** Commits, notifications and the subscriber's own steps may interleave anywhere. `announced` is how
      many events were stored when this Run was last notified; `opening` lasts until the first load. */
  datatype World = World(
    count: nat, announced: nat, channel: Channel,
    cursor: nat, pending: seq<nat>, position: nat, delivered: seq<nat>,
    opening: bool, reloading: bool, closing: bool, ended: bool)

  datatype Step = Commit(events: nat) | Notify(mine: bool) | Close | Deliver | Wait | Reload | GiveUp

  /** Subscribed, with the first load still to come. */
  function Subscribed(count: nat, channel: Channel, after: nat): World {
    World(count, 0, channel, after, [], |channel.sent|, [], true, true, false, false)
  }

  /** A load can fail, and the caller can drop a call that waits for one; either way the call is given up
      after what made it look was read. A subscription whose first load fails is never handed out. */
  function Next(w: World, step: Step): World {
    match step
    case Commit(events) => w.(count := w.count + events)
    case Notify(mine) =>
      if w.channel.closed then w
      else w.(channel := w.channel.(sent := w.channel.sent + [Notification(mine)]),
              announced := if mine then w.count else w.announced)
    case Close => w.(channel := w.channel.(closed := true))
    case Deliver =>
      if w.reloading || w.ended || w.pending == [] then w
      else w.(cursor := w.pending[0], pending := w.pending[1..], delivered := w.delivered + [w.pending[0]])
    case Wait =>
      if w.reloading || w.ended || w.pending != [] then w
      else
        var outcome := Receive(w.channel, w.position);
        w.(position := outcome.1,
           reloading := outcome.0.Lagged? || outcome.0.Closed? || (outcome.0.Message? && outcome.0.mine),
           closing := outcome.0.Closed?)
    case Reload =>
      if !w.reloading then w
      else
        var pending := w.pending + LoadEvents(w.count, w.cursor);
        w.(pending := pending, opening := false, reloading := false, ended := w.closing && pending == [])
    case GiveUp =>
      if !w.reloading || w.opening then w else w.(reloading := false, closing := false)
  }

  /** Something will make the subscriber look at the store: a load under way, something unread, or a closed
      channel, which every call hears of. */
  ghost predicate News(w: World) {
    w.reloading || Unread(w.channel, w.position) || w.channel.closed
  }

  /** Every event notified after its commit is delivered, waits to be delivered, or is still to be looked for. */
  ghost predicate Covered(w: World) {
    w.announced <= w.cursor + |w.pending| || News(w)
  }

  ghost predicate Inv(w: World, after: nat) {
    && w.position <= |w.channel.sent|
    && after <= w.cursor
    && w.delivered == Between(after + 1, w.cursor)
    && w.pending == Between(w.cursor + 1, w.cursor + |w.pending|)
    && (w.pending != [] ==> w.cursor + |w.pending| <= w.count)
    && w.announced <= w.count
    && (w.reloading ==> w.pending == [])
    && (w.opening ==> w.reloading)
    && (w.closing ==> w.channel.closed && w.position == |w.channel.sent|)
    && (w.ended ==> w.channel.closed && w.announced <= w.cursor)
  }

  /** Delivering the first of a queue that continues the cursor keeps both lists without a gap. */
  lemma DeliverContinues(after: nat, cursor: nat, delivered: seq<nat>, pending: seq<nat>)
    requires after <= cursor && delivered == Between(after + 1, cursor)
    requires pending != [] && pending == Between(cursor + 1, cursor + |pending|)
    ensures pending[0] == cursor + 1 && delivered + [pending[0]] == Between(after + 1, cursor + 1)
    ensures pending[1..] == Between(cursor + 2, cursor + |pending|)
  {
    BetweenExtends(after + 1, cursor);
    BetweenPops(cursor + 1, cursor + |pending|);
  }

  lemma DeliverKeeps(w: World, after: nat)
    requires Inv(w, after)
    ensures Inv(Next(w, Deliver), after)
  {
    if !w.reloading && !w.ended && w.pending != [] {
      DeliverContinues(after, w.cursor, w.delivered, w.pending);
      var next := Next(w, Deliver);
      assert next.cursor == w.cursor + 1 && next.cursor + |next.pending| == w.cursor + |w.pending|;
    }
  }

  lemma StepKeeps(w: World, step: Step, after: nat)
    requires Inv(w, after)
    ensures Inv(Next(w, step), after)
  {
    if step.Deliver? { DeliverKeeps(w, after); }
  }

  function Played(w: World, steps: seq<Step>): World
    decreases |steps|
  {
    if steps == [] then w else Played(Next(w, steps[0]), steps[1..])
  }

  lemma {:induction false} PlayedKeeps(w: World, steps: seq<Step>, after: nat)
    requires Inv(w, after)
    ensures Inv(Played(w, steps), after)
    decreases |steps|
  {
    if steps != [] {
      StepKeeps(w, steps[0], after);
      PlayedKeeps(Next(w, steps[0]), steps[1..], after);
    }
  }

  lemma SubscribedFits(count: nat, channel: Channel, after: nat)
    ensures Inv(Subscribed(count, channel, after), after)
  {
  }

  lemma ReachedFits(count: nat, channel: Channel, after: nat, steps: seq<Step>)
    ensures Inv(Played(Subscribed(count, channel, after), steps), after)
  {
    SubscribedFits(count, channel, after);
    PlayedKeeps(Subscribed(count, channel, after), steps, after);
  }

  /** However commits, notifications for any Run, overflow of the channel, failed or dropped loads and the
      subscriber's other steps interleave: what was delivered is after+1, after+2, ... without gap or
      repeat, what waits continues it, and a subscription that has ended has delivered every event that
      was notified after its commit. */
  lemma GapFree(count: nat, channel: Channel, after: nat, steps: seq<Step>)
    ensures var w := Played(Subscribed(count, channel, after), steps);
            && w.delivered == Between(after + 1, w.cursor)
            && w.pending == Between(w.cursor + 1, w.cursor + |w.pending|)
            && (w.ended ==> w.announced <= w.cursor)
  {
    ReachedFits(count, channel, after, steps);
  }

  // ---------- when an announced event is covered ----------

  /** A load is given up while events are announced beyond the cursor and nothing else will make the
      subscriber look. */
  ghost predicate Drops(w: World, step: Step) {
    && step.GiveUp? && w.reloading && !w.opening
    && w.announced > w.cursor && !Unread(w.channel, w.position) && !w.channel.closed
  }

  /** The channel has news again: of this Run, of having lagged, or of its closing. */
  predicate Wakes(w: World, step: Step) {
    || step.Close?
    || (step.Notify? && !w.channel.closed && (step.mine || w.position + w.channel.capacity <= |w.channel.sent|))
  }

  /** Another notification leaves what is unread unread, whether it is kept or overwritten. */
  lemma NotifyKeepsUnread(channel: Channel, position: nat, mine: bool)
    requires position <= |channel.sent|
    ensures var later := channel.(sent := channel.sent + [Notification(mine)]);
            Unread(later, position)
            <==> Unread(channel, position) || mine || position + channel.capacity <= |channel.sent|
  {
    var later := channel.(sent := channel.sent + [Notification(mine)]);
    assert later.sent[|channel.sent|] == Notification(mine);
    if i :| position <= i < |channel.sent| && channel.sent[i].mine { assert later.sent[i].mine; }
  }

  lemma WaitCovers(w: World, after: nat)
    requires Inv(w, after)
    ensures Covered(Next(w, Wait)) <==> Covered(w)
  {
    if !w.reloading && w.pending == [] && w.channel.Oldest() <= w.position < |w.channel.sent|
       && !w.channel.sent[w.position].mine {
      SkippingKeepsUnread(w.channel, w.position);
    }
  }

  lemma CoverageStep(w: World, step: Step, after: nat)
    requires Inv(w, after)
    ensures Covered(Next(w, step)) <==> if Covered(w) then !Drops(w, step) else Wakes(w, step)
  {
    match step
    case Notify(mine) => NotifyKeepsUnread(w.channel, w.position, mine);
    case Wait => WaitCovers(w, after);
    case _ =>
  }

  lemma LoadCovers(w: World, after: nat)
    requires Inv(w, after) && w.reloading
    ensures var loaded := Next(w, Reload);
            loaded.cursor + |loaded.pending| >= loaded.count && Covered(loaded)
  {
  }

  /** After every history from a subscription: a step leaves every announced event covered exactly when it
      gives up no load that was the last reason to look; what was lost that way is covered again exactly
      when the channel has news again; and a load that succeeds leaves nothing stored behind. */
  lemma CoveredExactly(count: nat, channel: Channel, after: nat, steps: seq<Step>, step: Step)
    ensures var w := Played(Subscribed(count, channel, after), steps);
            && (Covered(Next(w, step)) <==> if Covered(w) then !Drops(w, step) else Wakes(w, step))
            && (w.reloading && step.Reload? ==> Next(w, step).cursor + |Next(w, step).pending| >= w.count)
  {
    ReachedFits(count, channel, after, steps);
    var w := Played(Subscribed(count, channel, after), steps);
    CoverageStep(w, step, after);
    if w.reloading { LoadCovers(w, after); }
  }

  /** No load of the history is given up that was the last reason to look. */
  ghost predicate Patient(w: World, steps: seq<Step>)
    decreases |steps|
  {
    steps == [] || (!Drops(w, steps[0]) && Patient(Next(w, steps[0]), steps[1..]))
  }

  lemma {:induction false} PatientCovers(w: World, steps: seq<Step>, after: nat)
    requires Inv(w, after) && Covered(w) && Patient(w, steps)
    ensures Covered(Played(w, steps))
    decreases |steps|
  {
    if steps != [] {
      CoverageStep(w, steps[0], after);
      StepKeeps(w, steps[0], after);
      PatientCovers(Next(w, steps[0]), steps[1..], after);
    }
  }

  /** In every patient history each event notified after its commit is delivered, waits to be delivered, or
      is still to be looked for. */
  lemma NothingAnnouncedIsMissed(count: nat, channel: Channel, after: nat, steps: seq<Step>)
    requires Patient(Subscribed(count, channel, after), steps)
    ensures Covered(Played(Subscribed(count, channel, after), steps))
  {
    SubscribedFits(count, channel, after);
    PatientCovers(Subscribed(count, channel, after), steps, after);
  }

  // ---------- nothing announced gets stuck ----------

  /** The subscriber's own steps: reading the channel, loading and delivering. */
  ghost predicate Own(steps: seq<Step>) {
    forall i | 0 <= i < |steps| :: steps[i].Deliver? || steps[i].Wait? || steps[i].Reload?
  }

  lemma {:induction false} PlayedAppend(w: World, a: seq<Step>, b: seq<Step>)
    ensures Played(w, a + b) == Played(Played(w, a), b)
    decreases |a|
  {
    if a == [] {
      assert a + b == b;
    } else {
      assert (a + b)[0] == a[0] && (a + b)[1..] == a[1..] + b;
      PlayedAppend(Next(w, a[0]), a[1..], b);
    }
  }

  lemma PlayedOne(w: World, step: Step)
    ensures Played(w, [step]) == Next(w, step)
  {
    assert [step][1..] == [];
  }

  /** The state when everything that waits has been delivered. */
  function Delivered(w: World): World {
    w.(cursor := if w.pending == [] then w.cursor else w.pending[|w.pending| - 1], pending := [],
       delivered := w.delivered + w.pending)
  }

  lemma {:induction false} DeliversAll(w: World) returns (steps: seq<Step>)
    requires !w.reloading && !w.ended
    ensures Own(steps) && Played(w, steps) == Delivered(w)
    decreases |w.pending|
  {
    if w.pending == [] {
      steps := [];
      assert w.delivered + [] == w.delivered;
    } else {
      var next := Next(w, Deliver);
      var more := DeliversAll(next);
      steps := [Deliver] + more;
      PlayedAppend(w, [Deliver], more);
      PlayedOne(w, Deliver);
      assert next.delivered + next.pending == w.delivered + w.pending;
    }
  }

  lemma DeliveredReaches(w: World, after: nat)
    requires Inv(w, after)
    ensures Delivered(w).cursor == w.cursor + |w.pending|
  {
  }

  /** Loading and delivering leaves nothing stored behind. */
  lemma LooksAndDelivers(w: World, after: nat) returns (steps: seq<Step>)
    requires Inv(w, after) && w.reloading && !w.ended
    ensures Own(steps) && Played(w, steps).cursor >= w.announced
  {
    var loaded := Next(w, Reload);
    StepKeeps(w, Reload, after);
    LoadCovers(w, after);
    PlayedOne(w, Reload);
    if loaded.ended {
      steps := [Reload];
    } else {
      var more := DeliversAll(loaded);
      DeliveredReaches(loaded, after);
      steps := [Reload] + more;
      PlayedAppend(w, [Reload], more);
    }
  }

  /** With nothing to deliver the subscriber reads the channel until something makes it look. */
  lemma {:induction false} ReadsOn(w: World, after: nat) returns (steps: seq<Step>)
    requires Inv(w, after) && Covered(w) && !w.ended && !w.reloading && w.pending == []
    ensures Own(steps) && Played(w, steps).cursor >= w.announced
    decreases |w.channel.sent| - w.position
  {
    if w.announced <= w.cursor {
      steps := [];
    } else {
      var next := Next(w, Wait);
      StepKeeps(w, Wait, after);
      WaitCovers(w, after);
      PlayedOne(w, Wait);
      var more;
      if next.reloading { more := LooksAndDelivers(next, after); } else { more := ReadsOn(next, after); }
      steps := [Wait] + more;
      PlayedAppend(w, [Wait], more);
    }
  }

  lemma Arrives(w: World, after: nat) returns (steps: seq<Step>)
    requires Inv(w, after) && Covered(w)
    ensures Own(steps) && Played(w, steps).cursor >= w.announced
  {
    if w.ended {
      steps := [];
    } else if w.reloading {
      steps := LooksAndDelivers(w, after);
    } else {
      var first := DeliversAll(w);
      PlayedKeeps(w, first, after);
      var more := ReadsOn(Played(w, first), after);
      steps := first + more;
      PlayedAppend(w, first, more);
    }
  }

  /** After every patient history the subscriber can go on by itself until everything that was announced has been
      delivered, in order and without a gap: nothing waits for another notification. */
  lemma AnnouncedEventsArrive(count: nat, channel: Channel, after: nat, steps: seq<Step>)
    requires Patient(Subscribed(count, channel, after), steps)
    ensures var w := Played(Subscribed(count, channel, after), steps);
            exists more :: && Own(more) && Played(w, more).cursor >= w.announced
                           && Played(w, more).delivered == Between(after + 1, Played(w, more).cursor)
  {
    var w := Played(Subscribed(count, channel, after), steps);
    NothingAnnouncedIsMissed(count, channel, after, steps);
    ReachedFits(count, channel, after, steps);
    var more := Arrives(w, after);
    PlayedKeeps(w, more, after);
  }

  // ---------- and what giving up loses ----------

  const Quiet := Channel(1, [], false)
  const Opened := Next(Subscribed(0, Quiet, 0), Reload)
  const Looking := Next(Next(Next(Opened, Commit(1)), Notify(true)), Wait)

  /** The failing input: one event is committed and announced, the subscriber hears of it, and its load is
      given up. Nothing then says that there is an event to deliver. */
  lemma GivingUpDropsAnEvent()
    ensures var w := Played(Subscribed(0, Quiet, 0), [Reload, Commit(1), Notify(true), Wait, GiveUp]);
            w.count == w.announced == 1 && w.cursor == 0 && w.pending == [] && !Covered(w)
  {
    var steps := [Reload, Commit(1), Notify(true), Wait, GiveUp];
    assert Played(Subscribed(0, Quiet, 0), steps) == Played(Opened, steps[1..]);
    assert Played(Opened, steps[1..]) == Played(Next(Opened, Commit(1)), steps[2..]);
    assert steps[2..][1..] == steps[3..] && steps[3..][1..] == steps[4..] && steps[4..][1..] == [];
    assert Played(Next(Opened, Commit(1)), steps[2..])
           == Played(Next(Next(Opened, Commit(1)), Notify(true)), steps[3..])
           == Played(Looking, steps[4..]) == Next(Looking, GiveUp);
  }
}
