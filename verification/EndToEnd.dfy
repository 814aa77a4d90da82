/**
 From the worker to the browser: in every run of the platform, whether the hook of a
 browser that watches a job ends up showing the success of the attempt that returns is
 settled by what is announced first about the job, its completion or a failure.
 */
module EndToEnd {
  import opened Wrappers
  import opened Keys
  import opened Messages
  import opened Store
  import opened Environment
  import opened Attempt
  import opened Machine
  import opened Guarantees
  import opened Outputs
  import opened AttemptEvents
  import opened Announcements
  import opened Registry
  import opened Delivery
  import opened ClientView
  import opened JobHook

  /** The item ends the subscription of `s` to `j` or takes `s` out of the open state. */
  predicate Disturbs<S(==)>(item: Item<S>, s: S, j: string) {
    match item
    case Connect(_, t) => t == s
    case Closing(t) => t == s
    case Closed(t) => t == s
    case FromClient(t, Unsubscribe(k)) => t == s && k == j
    case _ => false
  }

  predicate Undisturbed<S(==)>(items: seq<Item<S>>, s: S, j: string) {
    forall i | 0 <= i < |items| :: !Disturbs(items[i], s, j)
  }

  /** No message claims in its body to be about another job than its channel says. */
  predicate Honest(m: Message) {
    Decode(m).Some? ==> HasField(Decode(m).value.event, "jobId", Str(Decode(m).value.jobId))
  }

  predicate AllHonest<S>(items: seq<Item<S>>) {
    forall i | 0 <= i < |items| && items[i].Published? :: Honest(items[i].publication)
  }

  /** The messages published in `items` about job `j`. */
  function MessagesAbout<S>(items: seq<Item<S>>, j: string): seq<Message> {
    if items == [] then []
    else
      var rest, last := items[..|items| - 1], items[|items| - 1];
      if last.Published? && Decode(last.publication).Some? && Decode(last.publication).value.jobId == j
      then MessagesAbout(rest, j) + [last.publication]
      else MessagesAbout(rest, j)
  }

  lemma LastOf<S>(pre: seq<Item<S>>, items: seq<Item<S>>)
    requires items != []
    ensures var log := pre + items;
            log[..|log| - 1] == pre + items[..|items| - 1] && log[|log| - 1] == items[|items| - 1]
  {}

  lemma {:induction false} StaysSubscribed<S>(pre: seq<Item<S>>, items: seq<Item<S>>, s: S, j: string)
    requires IsSubscribed(pre, s, j) && IsOpen(pre, s) && IsConnected(pre, s) && Undisturbed(items, s, j)
    ensures IsSubscribed(pre + items, s, j) && IsOpen(pre + items, s) && IsConnected(pre + items, s)
    decreases |items|
  {
    if items == [] {
      assert pre + items == pre;
    } else {
      LastOf(pre, items);
      StaysSubscribed(pre, items[..|items| - 1], s, j);
    }
  }

  /** What the client is due beyond `pre`. */
  function DueSince<S(==)>(pre: seq<Item<S>>, items: seq<Item<S>>, s: S): seq<Event>
    decreases |items|
  {
    if items == [] then []
    else
      var rest, last := items[..|items| - 1], items[|items| - 1];
      if last.Published? && Decode(last.publication).Some?
         && IsSubscribed(pre + rest, s, Decode(last.publication).value.jobId) && IsOpen(pre + rest, s)
      then DueSince(pre, rest, s) + [Decode(last.publication).value.event]
      else DueSince(pre, rest, s)
  }

  lemma {:induction false} DueSplits<S>(pre: seq<Item<S>>, items: seq<Item<S>>, s: S)
    ensures Due(pre + items, s) == Due(pre, s) + DueSince(pre, items, s)
    decreases |items|
  {
    if items == [] {
      assert pre + items == pre;
    } else {
      LastOf(pre, items);
      DueSplits(pre, items[..|items| - 1], s);
    }
  }

  lemma {:induction false} SubscribedIsConnected<S>(log: seq<Item<S>>, s: S, j: string)
    requires IsSubscribed(log, s, j)
    ensures IsConnected(log, s)
  {
    RegistryFollowsLog(log, s);
    assert Listens(HandleAll(log).registry, s, j);
  }

  /** What is sent on `s` during `items`. */
  function NewsOn<S(==)>(pre: seq<Item<S>>, items: seq<Item<S>>, s: S): seq<Event> {
    var before, after := SentOn(HandleAll(pre), s), SentOn(HandleAll(pre + items), s);
    if |before| <= |after| then after[|before|..] else []
  }

  lemma NewsIsDue<S>(pre: seq<Item<S>>, items: seq<Item<S>>, s: S)
    ensures SentOn(HandleAll(pre), s) <= SentOn(HandleAll(pre + items), s)
    ensures NewsOn(pre, items, s) == DueSince(pre, items, s)
  {
    SentIsDue(pre, s);
    SentIsDue(pre + items, s);
    DueSplits(pre, items, s);
  }

  // ---- The hook and its socket ------------------------------------------------

  /** The socket is disturbed only once the hook, having shown a final status, has closed it. */
  predicate LeftToHook<S(==)>(pre: seq<Item<S>>, items: seq<Item<S>>, s: S, j: string, h: Hook) {
    forall i | 0 <= i < |items| ::
      Disturbs(items[i], s, j) ==> !Feed(h, j, NewsOn(pre, items[..i], s)).connection.Live?
  }

  lemma {:induction false} ClosedStaysClosed(h: Hook, j: string, a: seq<Event>, b: seq<Event>)
    requires !Feed(h, j, a).connection.Live?
    ensures Feed(h, j, a + b) == Feed(h, j, a)
    decreases |b|
  {
    if b == [] {
      assert a + b == a;
    } else {
      assert a + b == (a + b[..|b| - 1]) + [b[|b| - 1]];
      ClosedStaysClosed(h, j, a, b[..|b| - 1]);
      FeedOne(h, j, a + b[..|b| - 1], b[|b| - 1]);
    }
  }

  lemma {:induction false} DueSinceGrows<S>(pre: seq<Item<S>>, items: seq<Item<S>>, s: S, i: nat)
    requires i <= |items|
    ensures DueSince(pre, items[..i], s) <= DueSince(pre, items, s)
  {
    if i == |items| {
      assert items[..i] == items;
    } else {
      var rest := items[..|items| - 1];
      assert rest[..i] == items[..i];
      DueSinceGrows(pre, rest, s, i);
    }
  }

  /** While the hook is live its socket has been left alone. */
  lemma LiveIsUndisturbed<S>(pre: seq<Item<S>>, items: seq<Item<S>>, s: S, j: string, h: Hook)
    requires LeftToHook(pre, items, s, j, h) && Feed(h, j, NewsOn(pre, items, s)).connection.Live?
    ensures Undisturbed(items, s, j)
  {
    forall i | 0 <= i < |items| ensures !Disturbs(items[i], s, j) {
      LiveWasLive(pre, items, s, j, h, i);
    }
  }

  lemma LiveWasLive<S>(pre: seq<Item<S>>, items: seq<Item<S>>, s: S, j: string, h: Hook, i: nat)
    requires i <= |items| && Feed(h, j, NewsOn(pre, items, s)).connection.Live?
    ensures Feed(h, j, NewsOn(pre, items[..i], s)).connection.Live?
  {
    NewsIsDue(pre, items[..i], s);
    NewsIsDue(pre, items, s);
    DueSinceGrows(pre, items, s, i);
    LiveOnPrefix(h, j, NewsOn(pre, items[..i], s), NewsOn(pre, items, s));
  }

  lemma LiveOnPrefix(h: Hook, j: string, before: seq<Event>, after: seq<Event>)
    requires before <= after && Feed(h, j, after).connection.Live?
    ensures Feed(h, j, before).connection.Live?
  {
    assert before + after[|before|..] == after;
    if !Feed(h, j, before).connection.Live? {
      ClosedStaysClosed(h, j, before, after[|before|..]);
    }
  }

  lemma LeftToHookBefore<S>(pre: seq<Item<S>>, items: seq<Item<S>>, s: S, j: string, h: Hook)
    requires items != [] && LeftToHook(pre, items, s, j, h)
    ensures LeftToHook(pre, items[..|items| - 1], s, j, h)
  {
    var rest := items[..|items| - 1];
    forall i | 0 <= i < |rest| && Disturbs(rest[i], s, j) ensures !Feed(h, j, NewsOn(pre, rest[..i], s)).connection.Live? {
      assert rest[i] == items[i] && rest[..i] == items[..i];
    }
  }

  /** An event of another job changes nothing on a screen that is up to date. */
  lemma ForeignIsIgnored(h: Hook, j: string, event: Event)
    requires Rendered(h) && !HasField(event, "jobId", Str(j))
    ensures Shown(h, j, event) == h
  {}

  lemma {:induction false} FeedIsRendered(h: Hook, j: string, events: seq<Event>)
    requires Rendered(h)
    ensures Rendered(Feed(h, j, events))
  {
    if events != [] {
      FeedIsRendered(h, j, events[..|events| - 1]);
    }
  }

  /** The last item brings the hook what it publishes about `j`, if anything. */
  lemma LastItemFeeds<S>(pre: seq<Item<S>>, items: seq<Item<S>>, s: S, j: string, h: Hook)
    requires items != [] && AllHonest(items) && Rendered(h)
    requires var rest := items[..|items| - 1];
             IsSubscribed(pre + rest, s, j) && IsOpen(pre + rest, s)
             && Feed(h, j, DueSince(pre, rest, s)) == Feed(h, j, EventsOf(MessagesAbout(rest, j)))
    ensures Feed(h, j, DueSince(pre, items, s)) == Feed(h, j, EventsOf(MessagesAbout(items, j)))
  {
    var rest, last := items[..|items| - 1], items[|items| - 1];
    if last.Published? && Decode(last.publication).Some? {
      var a := Decode(last.publication).value;
      assert Honest(last.publication);
      FeedOne(h, j, DueSince(pre, rest, s), a.event);
      if a.jobId == j {
        EventsOfAppend(MessagesAbout(rest, j), last.publication, a.event);
        FeedOne(h, j, EventsOf(MessagesAbout(rest, j)), a.event);
      } else {
        FeedIsRendered(h, j, DueSince(pre, rest, s));
        ForeignIsIgnored(Feed(h, j, DueSince(pre, rest, s)), j, a.event);
      }
    }
  }

  lemma ClosedFeedsAlike<S>(pre: seq<Item<S>>, items: seq<Item<S>>, s: S, j: string, h: Hook)
    requires items != []
    requires var rest := items[..|items| - 1];
             && Feed(h, j, DueSince(pre, rest, s)) == Feed(h, j, EventsOf(MessagesAbout(rest, j)))
             && !Feed(h, j, DueSince(pre, rest, s)).connection.Live?
    ensures Feed(h, j, DueSince(pre, items, s)) == Feed(h, j, EventsOf(MessagesAbout(items, j)))
  {
    var rest, last := items[..|items| - 1], items[|items| - 1];
    if last.Published? && Decode(last.publication).Some? {
      var a := Decode(last.publication).value;
      FeedOne(h, j, DueSince(pre, rest, s), a.event);
      EventsOfAppend(MessagesAbout(rest, j), last.publication, a.event);
      FeedOne(h, j, EventsOf(MessagesAbout(rest, j)), a.event);
    }
  }

  /** What is sent on the socket does to the hook what the messages about its job do. */
  lemma {:induction false} NewsFeedMessages<S>(pre: seq<Item<S>>, items: seq<Item<S>>, s: S, j: string, h: Hook)
    requires IsSubscribed(pre, s, j) && IsOpen(pre, s) && LeftToHook(pre, items, s, j, h)
    requires AllHonest(items) && Rendered(h)
    ensures Feed(h, j, NewsOn(pre, items, s)) == Feed(h, j, EventsOf(MessagesAbout(items, j)))
    decreases |items|
  {
    NewsIsDue(pre, items, s);
    if items != [] {
      var rest := items[..|items| - 1];
      LeftToHookBefore(pre, items, s, j, h);
      NewsFeedMessages(pre, rest, s, j, h);
      NewsIsDue(pre, rest, s);
      if Feed(h, j, DueSince(pre, rest, s)).connection.Live? {
        LiveIsUndisturbed(pre, rest, s, j, h);
        SubscribedIsConnected(pre, s, j);
        StaysSubscribed(pre, rest, s, j);
        LastItemFeeds(pre, items, s, j, h);
      } else {
        ClosedFeedsAlike(pre, items, s, j, h);
      }
    }
  }

  // ---- Together with the platform ---------------------------------------------

  /** What is published in `items`. */
  function Publications<S>(items: seq<Item<S>>): seq<Message> {
    if items == [] then []
    else
      var rest, last := items[..|items| - 1], items[|items| - 1];
      Publications(rest) + if last.Published? then [last.publication] else []
  }

  lemma {:induction false} HonestPublications<S>(items: seq<Item<S>>)
    requires forall i | 0 <= i < |Publications(items)| :: Honest(Publications(items)[i])
    ensures AllHonest(items)
  {
    if items != [] {
      var rest, last := items[..|items| - 1], items[|items| - 1];
      var n := |Publications(rest)|;
      forall i | 0 <= i < n ensures Honest(Publications(rest)[i]) {
        assert Publications(items)[i] == Publications(rest)[i];
      }
      if last.Published? {
        assert Publications(items)[n] == last.publication;
      }
      HonestPublications(rest);
    }
  }

  lemma {:induction false} AboutPublications<S>(items: seq<Item<S>>, j: string)
    requires AllHonest(items)
    ensures About(Publications(items), j) == MessagesAbout(items, j)
  {
    if items != [] {
      var rest, last := items[..|items| - 1], items[|items| - 1];
      AboutPublications(rest, j);
      if last.Published? {
        assert Honest(last.publication);
        AboutDistributes(Publications(rest), [last.publication], j);
      } else {
        assert Publications(items) == Publications(rest);
      }
    }
  }

  /** Nothing that the platform publishes is dishonest. */
  lemma RunMessagesAreHonest(w: World, run: Run, i: nat)
    requires Reachable(w) && ValidRun(w, run) && i < |RunMessages(w, run)|
    ensures Honest(RunMessages(w, run)[i])
  {
    ReachableKeepsInvariant(w);
    forall k | 0 <= k < |w.base.store.published| ensures IsDeliverable(w, w.base.store.published[k]) {
      EverythingPublishedIsDeliverable(w, k);
    }
    RunKeepsPublished(w, run);
    RunPublishes(w, run);
    var m := RunMessages(w, run)[i];
    assert m == End(w, run).base.store.published[|w.base.store.published| + i];
    assert IsDeliverable(End(w, run), m);
  }

  // ---- The messages of a run --------------------------------------------------

  lemma SuccessIsOfAttempt(p: Payload, output: Id)
    ensures forall m | m in SuccessMessages(p, output) :: MessageOfAttempt(m, p.jobId, output)
  {
    AnnouncedIsProgress(p, Announce(output));
  }

  /** An attempt that has not returned has its completion still to announce. */
  lemma CompletionIsAhead(p: Payload, pc: Pc, own: seq<Message>, output: Id)
    requires !pc.Returned? && Announced(p, pc) + own == SuccessMessages(p, output)
    ensures CompletedMessage(p.jobId, output) in own
    ensures forall m | m in own :: MessageOfAttempt(m, p.jobId, output)
  {
    var completed, all := CompletedMessage(p.jobId, output), Announced(p, pc) + own;
    SuccessIsOfAttempt(p, output);
    AnnouncedIsProgress(p, pc);
    forall n: int ensures ProgressMessage(p.jobId, n) != completed {
      VerdictsDiffer(p.jobId, n, output);
    }
    assert all[|all| - 1] == completed;
    assert completed in Announced(p, pc) || completed in own;
    assert forall m | m in own :: m in all;
  }

  lemma {:induction false} NoFailuresKeeps(messages: seq<Message>, j: string, m: Message)
    requires m in messages
    ensures IsFailure(m, j) || m in NoFailures(messages, j)
  {
    if m != messages[0] {
      NoFailuresKeeps(messages[1..], j, m);
    }
  }

  /** What is announced about the job during the run is of the attempt, or failures of earlier ones. */
  lemma AnnouncementsAreOfAttempt(messages: seq<Message>, p: Payload, output: Id)
    requires forall m | m in Own(messages, p.jobId) :: MessageOfAttempt(m, p.jobId, output)
    ensures forall m | m in About(messages, p.jobId) :: MessageOfAttempt(m, p.jobId, output)
  {
    forall m | m in About(messages, p.jobId) ensures MessageOfAttempt(m, p.jobId, output) {
      NoFailuresKeeps(About(messages, p.jobId), p.jobId, m);
    }
  }

  /** The first final message is a completion or a failure, and a completion if there is no failure. */
  lemma {:induction false} FirstFinalOfSuccess(messages: seq<Message>, j: string, output: Id)
    requires CompletedMessage(j, output) in messages
    ensures FirstFinal(messages, j) != Undecided
    ensures NoFailures(messages, j) == messages ==> FirstFinal(messages, j) == Success
  {
    VerdictsDiffer(j, 0, output);
    var rest, last := messages[..|messages| - 1], messages[|messages| - 1];
    assert messages == rest + [last];
    if NoFailures(messages, j) == messages {
      NoFailureAtAll(messages, j);
      FirstFinalIsNoFailure(messages, j);
    }
    if last != CompletedMessage(j, output) {
      FirstFinalOfSuccess(rest, j, output);
    }
  }

  lemma {:induction false} NoFailureAtAll(messages: seq<Message>, j: string)
    requires NoFailures(messages, j) == messages
    ensures forall m | m in messages :: !IsFailure(m, j)
  {
    if messages != [] {
      NoFailuresShorten(messages[1..], j);
      assert NoFailures(messages, j)[1..] == messages[1..];
      NoFailureAtAll(messages[1..], j);
    }
  }

  lemma {:induction false} FirstFinalIsNoFailure(messages: seq<Message>, j: string)
    requires forall m | m in messages :: !IsFailure(m, j)
    ensures !FirstFinal(messages, j).Failure?
  {
    if messages != [] {
      FirstFinalIsNoFailure(messages[..|messages| - 1], j);
    }
  }

  // ---- The main results -------------------------------------------------------

  /** The run takes the attempt from one of its awaits to its return. */
  ghost predicate AttemptReturns(w: World, run: Run, q: nat, output: Id) {
    && Reachable(w) && ValidRun(w, run) && NeverSettles(run, q)
    && AtWork(w, q) && !Ended(w.queue[q].state.pc)
    && q < |End(w, run).queue| && End(w, run).queue[q].state == Running(Returned(output))
  }

  /** What is announced about the job while the attempt gets to its return. */
  ghost function AnnouncedMeanwhile(w: World, run: Run, q: nat): seq<Message>
    requires ValidRun(w, run) && q < |w.queue|
  {
    About(RunMessages(w, run), w.queue[q].payload.jobId)
  }

  lemma AnnouncedIsDecided(w: World, run: Run, q: nat, output: Id)
    requires AttemptReturns(w, run, q, output)
    ensures var j := w.queue[q].payload.jobId;
            var messages := AnnouncedMeanwhile(w, run, q);
            && (forall m | m in messages :: MessageOfAttempt(m, j, output))
            && CompletedMessage(j, output) in messages && FirstFinal(messages, j) != Undecided
            && (HandlersDone(w, j) ==> FirstFinal(messages, j) == Success)
  {
    var p := w.queue[q].payload;
    AttemptAnnouncesItsSuccess(w, run, q, output);
    CompletionIsAhead(p, w.queue[q].state.pc, Own(RunMessages(w, run), p.jobId), output);
    AnnouncementsAreOfAttempt(RunMessages(w, run), p, output);
    var messages := AnnouncedMeanwhile(w, run, q);
    NoFailuresAreThere(messages, p.jobId, CompletedMessage(p.jobId, output));
    FirstFinalOfSuccess(messages, p.jobId, output);
  }

  lemma {:induction false} NoFailuresAreThere(messages: seq<Message>, j: string, m: Message)
    requires m in NoFailures(messages, j)
    ensures m in messages
  {
    if m != messages[0] {
      NoFailuresAreThere(messages[1..], j, m);
    }
  }

  /** For a hook on a socket that is subscribed, however that came about. */
  lemma SubscribedHookSeesCompletion<S>(w: World, run: Run, q: nat, output: Id,
                                        pre: seq<Item<S>>, items: seq<Item<S>>, s: S, h: Hook)
    requires AttemptReturns(w, run, q, output) && Publications(items) == RunMessages(w, run)
    requires var j := w.queue[q].payload.jobId;
             Steady(h) && IsSubscribed(pre, s, j) && IsOpen(pre, s) && LeftToHook(pre, items, s, j, h)
    ensures var j := w.queue[q].payload.jobId;
            var shown := Feed(h, j, NewsOn(pre, items, s)).view;
            && (shown == CompletedView(output) <==> FirstFinal(AnnouncedMeanwhile(w, run, q), j) == Success)
            && (shown.status == Str("failed") <==> FirstFinal(AnnouncedMeanwhile(w, run, q), j).Failure?)
            && (FirstFinal(AnnouncedMeanwhile(w, run, q), j).Failure?
                ==> shown.error == Some(Str(FirstFinal(AnnouncedMeanwhile(w, run, q), j).error)))
            && (HandlersDone(w, j) ==> shown == CompletedView(output))
  {
    var j := w.queue[q].payload.jobId;
    PublishedHonestly(w, run, items);
    AboutPublications(items, j);
    AnnouncedIsDecided(w, run, q, output);
    NewsFeedMessages(pre, items, s, j, h);
    FirstFinalDecides(h, j, output, MessagesAbout(items, j));
  }

  /**
   Take any run of the platform in which an attempt gets from any of its awaits to its
   return, and a log `items` in which the messages of that run are published among
   whatever the clients do.  A hook that has got to showing the job active, on a socket `s`
   where all it said has arrived when `items` begins and that no one but the hook takes
   down, ends up showing the job completed with the attempt's output exactly if that is announced
   before any failure of the job, as when no failure was being handled any more at the
   start; else it ends up showing the job failed.
   */
  lemma HookSeesCompletion<S>(w: World, run: Run, q: nat, output: Id,
                              pre: seq<Item<S>>, items: seq<Item<S>>, s: S, h: Hook)
    requires AttemptReturns(w, run, q, output) && Publications(items) == RunMessages(w, run)
    requires var j := w.queue[q].payload.jobId;
             Reached(h, j) && Steady(h) && OnSocket(pre, s, h) && LeftToHook(pre, items, s, j, h)
    ensures var j := w.queue[q].payload.jobId;
            var shown := Feed(h, j, NewsOn(pre, items, s)).view;
            && (shown == CompletedView(output) <==> FirstFinal(AnnouncedMeanwhile(w, run, q), j) == Success)
            && (shown.status == Str("failed") <==> FirstFinal(AnnouncedMeanwhile(w, run, q), j).Failure?)
            && (FirstFinal(AnnouncedMeanwhile(w, run, q), j).Failure?
                ==> shown.error == Some(Str(FirstFinal(AnnouncedMeanwhile(w, run, q), j).error)))
            && (HandlersDone(w, j) ==> shown == CompletedView(output))
  {
    LiveHookIsSubscribed(h, w.queue[q].payload.jobId, pre, s);
    SubscribedHookSeesCompletion(w, run, q, output, pre, items, s, h);
  }

  lemma PublishedHonestly<S>(w: World, run: Run, items: seq<Item<S>>)
    requires Reachable(w) && ValidRun(w, run) && Publications(items) == RunMessages(w, run)
    ensures AllHonest(items)
  {
    forall i | 0 <= i < |Publications(items)| ensures Honest(Publications(items)[i]) {
      RunMessagesAreHonest(w, run, i);
    }
    HonestPublications(items);
  }

  /**
   In such a run any hook not yet showing a final status, however its socket breaks or is
   reopened as a pending job becomes active, shows the completion in the end exactly if
   it is among the announcements that the hook takes in.
   */
  lemma AnyHookCompletesExactly(w: World, run: Run, q: nat, output: Id, h: Hook, hs: Happenings)
    requires AttemptReturns(w, run, q, output)
    requires var j := w.queue[q].payload.jobId;
             && HookOk(h) && !IsFinal(h.view.status) && Possible(h, j, hs) && InTime(h, j, hs)
             && forall e | e in Taken(hs) :: e in EventsOf(AnnouncedMeanwhile(w, run, q))
    ensures var j := w.queue[q].payload.jobId;
            var shown := ReactAll(h, j, hs).view;
            if CompletedEvent(j, output) in Taken(hs)
            then shown.(error := None) == CompletedView(output)
            else shown.status != COMPLETED
  {
    var j := w.queue[q].payload.jobId;
    AnnouncedIsDecided(w, run, q, output);
    EventsAreOfAttempt(AnnouncedMeanwhile(w, run, q), j, output);
    HookCompletesExactly(h, j, hs, output);
  }

  lemma {:induction false} EventsAreOfAttempt(messages: seq<Message>, j: string, output: string)
    requires forall m | m in messages :: MessageOfAttempt(m, j, output)
    ensures forall e | e in EventsOf(messages) :: OfAttempt(e, j, output)
  {
    if messages != [] {
      var rest, last := messages[..|messages| - 1], messages[|messages| - 1];
      EventsAreOfAttempt(rest, j, output);
      MessageDecodes(j, output, last);
      assert messages == rest + [last];
      EventsOfAppend(rest, last, EventOf(last).value);
    }
  }

  /** A socket that is left alone is sent the completion, whatever its client makes of it. */
  lemma SubscriberIsSentCompletion<S>(w: World, run: Run, q: nat, output: Id, pre: seq<Item<S>>, items: seq<Item<S>>, s: S)
    requires AttemptReturns(w, run, q, output) && Publications(items) == RunMessages(w, run)
    requires var j := w.queue[q].payload.jobId;
             IsSubscribed(pre, s, j) && IsOpen(pre, s) && Undisturbed(items, s, j)
    ensures CompletedEvent(w.queue[q].payload.jobId, output) in NewsOn(pre, items, s)
  {
    var j := w.queue[q].payload.jobId;
    PublishedHonestly(w, run, items);
    AboutPublications(items, j);
    AnnouncedIsDecided(w, run, q, output);
    NewsIsDue(pre, items, s);
    SubscribedIsConnected(pre, s, j);
    CompletedDecodes(j, output);
    AnnouncementIsDue(pre, items, s, j, CompletedMessage(j, output));
  }

  lemma {:induction false} AnnouncementIsDue<S>(pre: seq<Item<S>>, items: seq<Item<S>>, s: S, j: string, m: Message)
    requires IsSubscribed(pre, s, j) && IsOpen(pre, s) && IsConnected(pre, s) && Undisturbed(items, s, j)
    requires m in MessagesAbout(items, j)
    ensures Decode(m).Some? && Decode(m).value.event in DueSince(pre, items, s)
  {
    var rest := items[..|items| - 1];
    StaysSubscribed(pre, rest, s, j);
    if m in MessagesAbout(rest, j) {
      AnnouncementIsDue(pre, rest, s, j, m);
    }
  }

  // ---- A hook that starts with the job pending ---------------------------------

  lemma StepPublishesNews(w: World, step: Step, env: Env, j: Id)
    requires Enabled(w, step, env)
    ensures forall m | m in StepMessages(w, step, env) && IsAbout(m, j) :: IsNews(m, j)
  {
    match step
    case ContinueAttempt(q) => AttemptPublishesNews(w.base.store, w.queue[q].payload, w.queue[q].state.pc, env, j);
    case ContinueHandler(h) =>
      FailedDecodes(w.handlers[h].jobId, w.handlers[h].message);
    case _ =>
  }

  lemma AttemptPublishesNews(s: Store, p: Payload, pc: Pc, env: Env, j: Id)
    ensures var e := Attempt.Next(s, p, pc, env).effect;
            e.Publish? && IsAbout(e.message, j) ==> IsNews(e.message, j)
  {
    AttemptPublishesAboutItsJob(s, p, pc, env, j);
    var e := Attempt.Next(s, p, pc, env).effect;
    if e.Publish? && j == p.jobId {
      match pc
      case AnnounceActive => assert IsProgress(ProgressMessage(j, 0), j);
      case Report(m, _, _) => assert IsProgress(ProgressMessage(j, MilestoneProgress(m)), j);
      case Announce(output) => VerdictsDiffer(j, 0, output);
    }
  }

  lemma {:induction false} RunPublishesNews(w: World, run: Run, j: Id)
    requires ValidRun(w, run)
    ensures forall m | m in About(RunMessages(w, run), j) :: IsNews(m, j)
    decreases |run|
  {
    if run != [] {
      var now, later := StepMessages(w, run[0].0, run[0].1), RunMessages(After(w, run[0].0, run[0].1), run[1..]);
      StepPublishesNews(w, run[0].0, run[0].1, j);
      RunPublishesNews(After(w, run[0].0, run[0].1), run[1..], j);
      AboutDistributes(now, later, j);
      AboutIsThere(now, j);
    }
  }

  lemma {:induction false} AboutIsThere(messages: seq<Message>, j: Id)
    ensures forall m | m in About(messages, j) :: m in messages && IsAbout(m, j)
  {
    if messages != [] {
      AboutIsThere(messages[1..], j);
    }
  }

  /**
   In any run of the platform: a hook that shows the job pending, on a socket that no one
   but the hook takes down, is as it was if nothing is announced about the job.  At the
   first announcement it leaves the socket: for a new one if that is progress, else for
   good, showing the job completed or failed.
   */
  lemma ExpectantHookMovesOn<S>(w: World, run: Run, pre: seq<Item<S>>, items: seq<Item<S>>, s: S, j: Id, h: Hook)
    requires Reachable(w) && ValidRun(w, run) && Publications(items) == RunMessages(w, run)
    requires Expectant(h) && IsSubscribed(pre, s, j) && IsOpen(pre, s) && LeftToHook(pre, items, s, j, h)
    ensures var told, h' := About(RunMessages(w, run), j), Feed(h, j, NewsOn(pre, items, s));
            if told == [] then h' == h else MovedOn(h, h', VerdictOf(told[0], j), j)
  {
    PublishedHonestly(w, run, items);
    AboutPublications(items, j);
    NewsFeedMessages(pre, items, s, j, h);
    RunPublishesNews(w, run, j);
    var told := About(RunMessages(w, run), j);
    if told != [] {
      FirstNewsMovesOn(h, j, told);
    }
  }

  /** The hook on its new socket, once that is open. */
  function Reopened<S(==)>(pre: seq<Item<S>>, items: seq<Item<S>>, s: S, j: string, h: Hook): Hook {
    React(Feed(h, j, NewsOn(pre, items, s)), j, Opens)
  }

  lemma ReopenedIsSubscribed<S>(pre: seq<Item<S>>, items: seq<Item<S>>, s: S, t: S, j: string, h: Hook)
    requires OnSocket(pre + items, t, Reopened(pre, items, s, j, h))
    ensures IsSubscribed(pre + items, t, j) && IsOpen(pre + items, t)
  {
    SubscribedBySaying(pre + items, t, j);
  }

  ghost predicate FirstIsProgress(messages: seq<Message>, j: string) {
    messages != [] && IsProgress(messages[0], j)
  }

  lemma SubscribedPendingHookSeesCompletion<S>(w: World, run: Run, rest: Run, q: nat, output: Id,
                                     pre: seq<Item<S>>, items: seq<Item<S>>, later: seq<Item<S>>, s: S, t: S, h: Hook)
    requires Reachable(w) && ValidRun(w, run) && AttemptReturns(End(w, run), rest, q, output)
    requires Publications(items) == RunMessages(w, run) && Publications(later) == RunMessages(End(w, run), rest)
    requires var j := End(w, run).queue[q].payload.jobId;
             && Expectant(h) && IsSubscribed(pre, s, j) && IsOpen(pre, s) && LeftToHook(pre, items, s, j, h)
             && FirstIsProgress(About(RunMessages(w, run), j), j)
             && IsSubscribed(pre + items, t, j) && IsOpen(pre + items, t)
             && LeftToHook(pre + items, later, t, j, Reopened(pre, items, s, j, h))
    ensures var j := End(w, run).queue[q].payload.jobId;
            var shown := Feed(Reopened(pre, items, s, j, h), j, NewsOn(pre + items, later, t)).view;
            var verdict := FirstFinal(AnnouncedMeanwhile(End(w, run), rest, q), j);
            && (shown == CompletedView(output) <==> verdict == Success)
            && (shown.status == Str("failed") <==> verdict.Failure?)
            && (HandlersDone(End(w, run), j) ==> shown == CompletedView(output))
  {
    var j, w' := End(w, run).queue[q].payload.jobId, End(w, run);
    var told := About(RunMessages(w, run), j);
    ExpectantHookMovesOn(w, run, pre, items, s, j, h);
    var n: int :| told[0] == ProgressMessage(j, n);
    VerdictsDiffer(j, n, output);
    SubscribedHookSeesCompletion(w', rest, q, output, pre + items, later, t, Reopened(pre, items, s, j, h));
  }

  /**
   Let a hook start with the job pending on a socket `s`, and during `run` be told of the
   job for the first time, by progress.  It then opens a new socket `t`, and if what it
   says there has arrived before the attempt has ended, the hook ends up showing the job completed
   with the attempt's output exactly if no failure of it is announced first from there on.
   */
  lemma PendingHookSeesCompletion<S>(w: World, run: Run, rest: Run, q: nat, output: Id,
                                     pre: seq<Item<S>>, items: seq<Item<S>>, later: seq<Item<S>>, s: S, t: S, h: Hook)
    requires Reachable(w) && ValidRun(w, run) && AttemptReturns(End(w, run), rest, q, output)
    requires Publications(items) == RunMessages(w, run) && Publications(later) == RunMessages(End(w, run), rest)
    requires var j := End(w, run).queue[q].payload.jobId;
             && Reached(h, j) && Expectant(h) && OnSocket(pre, s, h) && LeftToHook(pre, items, s, j, h)
             && FirstIsProgress(About(RunMessages(w, run), j), j)
             && OnSocket(pre + items, t, Reopened(pre, items, s, j, h))
             && LeftToHook(pre + items, later, t, j, Reopened(pre, items, s, j, h))
    ensures var j := End(w, run).queue[q].payload.jobId;
            var shown := Feed(Reopened(pre, items, s, j, h), j, NewsOn(pre + items, later, t)).view;
            var verdict := FirstFinal(AnnouncedMeanwhile(End(w, run), rest, q), j);
            && (shown == CompletedView(output) <==> verdict == Success)
            && (shown.status == Str("failed") <==> verdict.Failure?)
            && (HandlersDone(End(w, run), j) ==> shown == CompletedView(output))
  {
    var j := End(w, run).queue[q].payload.jobId;
    LiveHookIsSubscribed(h, j, pre, s);
    ReopenedIsSubscribed(pre, items, s, t, j, h);
    SubscribedPendingHookSeesCompletion(w, run, rest, q, output, pre, items, later, s, t, h);
  }

  lemma ReturningIsNotDoomed(w: World, run: Run, q: nat, output: Id)
    requires AttemptReturns(w, run, q, output)
    ensures !Doomed(w.queue[q].state.pc)
  {
    ReachableKeepsInvariant(w);
    ReachableKeepsOutputs(w);
    RunSpeaksForAttempt(w, run, q);
    if Doomed(w.queue[q].state.pc) {
      DoomedStaysDoomed(w.queue[q].payload, w.queue[q].state.pc, TraceOf(w, run, q));
    }
  }

  lemma {:induction false} RunKeepsHandlersDone(w: World, run: Run, q: nat)
    requires Invariant(w) && ValidRun(w, run) && AtWork(w, q) && NeverSettles(run, q)
    requires HandlersDone(w, w.queue[q].payload.jobId)
    ensures HandlersDone(End(w, run), w.queue[q].payload.jobId)
    decreases |run|
  {
    if run != [] {
      NeverSettlesLater(run, q);
      AttemptLasts(w, run[0].0, run[0].1, q);
      HandlersStayDone(w, run[0].0, run[0].1, q);
      StepKeepsInvariant(w, run[0].0, run[0].1);
      RunKeepsHandlersDone(After(w, run[0].0, run[0].1), run[1..], q);
    }
  }

  /** Without failures to announce, an attempt that goes on has told of progress only. */
  lemma UndisturbedIsProgress(w: World, run: Run, rest: Run, q: nat, output: Id)
    requires Reachable(w) && ValidRun(w, run) && NeverSettles(run, q) && AtWork(w, q)
    requires HandlersDone(w, w.queue[q].payload.jobId) && AttemptReturns(End(w, run), rest, q, output)
    ensures var j := w.queue[q].payload.jobId;
            && End(w, run).queue[q].payload.jobId == j && HandlersDone(End(w, run), j)
            && forall m | m in About(RunMessages(w, run), j) :: IsProgress(m, j)
  {
    var p := w.queue[q].payload;
    ReachableKeepsInvariant(w);
    AttemptAnnounces(w, run, q);
    AttemptKeepsPayload(w, run, q);
    ReturningIsNotDoomed(End(w, run), rest, q, output);
    AnnouncedIsProgress(p, End(w, run).queue[q].state.pc);
    RunKeepsHandlersDone(w, run, q);
    var own := Own(RunMessages(w, run), p.jobId);
    forall m | m in own ensures m in Announced(p, w.queue[q].state.pc) + own {}
  }

  lemma {:induction false} AttemptKeepsPayload(w: World, run: Run, q: nat)
    requires ValidRun(w, run) && NeverSettles(run, q) && AtWork(w, q)
    ensures AtWork(End(w, run), q) && End(w, run).queue[q].payload == w.queue[q].payload
    decreases |run|
  {
    if run != [] {
      NeverSettlesLater(run, q);
      AttemptLasts(w, run[0].0, run[0].1, q);
      AttemptKeepsPayload(After(w, run[0].0, run[0].1), run[1..], q);
    }
  }

  lemma SubscribedPendingHookCompletes<S>(w: World, run: Run, rest: Run, q: nat, output: Id,
                                pre: seq<Item<S>>, items: seq<Item<S>>, later: seq<Item<S>>, s: S, t: S, h: Hook)
    requires Reachable(w) && ValidRun(w, run) && NeverSettles(run, q) && AtWork(w, q)
    requires HandlersDone(w, w.queue[q].payload.jobId) && AttemptReturns(End(w, run), rest, q, output)
    requires Publications(items) == RunMessages(w, run) && Publications(later) == RunMessages(End(w, run), rest)
    requires var j := w.queue[q].payload.jobId;
             && Expectant(h) && IsSubscribed(pre, s, j) && IsOpen(pre, s) && LeftToHook(pre, items, s, j, h)
             && About(RunMessages(w, run), j) != []
             && IsSubscribed(pre + items, t, j) && IsOpen(pre + items, t)
             && LeftToHook(pre + items, later, t, j, Reopened(pre, items, s, j, h))
    ensures var j := w.queue[q].payload.jobId;
            Feed(Reopened(pre, items, s, j, h), j, NewsOn(pre + items, later, t)).view == CompletedView(output)
  {
    UndisturbedIsProgress(w, run, rest, q, output);
    SubscribedPendingHookSeesCompletion(w, run, rest, q, output, pre, items, later, s, t, h);
  }

  /**
   So a hook that starts with the job pending always ends up showing the completion, if no
   failure was being handled while the attempt was at work, and the hook was told of the
   job and its subscription on the new socket has arrived before the attempt has ended.
   */
  lemma PendingHookCompletes<S>(w: World, run: Run, rest: Run, q: nat, output: Id,
                                pre: seq<Item<S>>, items: seq<Item<S>>, later: seq<Item<S>>, s: S, t: S, h: Hook)
    requires Reachable(w) && ValidRun(w, run) && NeverSettles(run, q) && AtWork(w, q)
    requires HandlersDone(w, w.queue[q].payload.jobId) && AttemptReturns(End(w, run), rest, q, output)
    requires Publications(items) == RunMessages(w, run) && Publications(later) == RunMessages(End(w, run), rest)
    requires var j := w.queue[q].payload.jobId;
             && Reached(h, j) && Expectant(h) && OnSocket(pre, s, h) && LeftToHook(pre, items, s, j, h)
             && About(RunMessages(w, run), j) != []
             && OnSocket(pre + items, t, Reopened(pre, items, s, j, h))
             && LeftToHook(pre + items, later, t, j, Reopened(pre, items, s, j, h))
    ensures var j := w.queue[q].payload.jobId;
            Feed(Reopened(pre, items, s, j, h), j, NewsOn(pre + items, later, t)).view == CompletedView(output)
  {
    var j := w.queue[q].payload.jobId;
    LiveHookIsSubscribed(h, j, pre, s);
    ReopenedIsSubscribed(pre, items, s, t, j, h);
    SubscribedPendingHookCompletes(w, run, rest, q, output, pre, items, later, s, t, h);
  }
}
