/**
 Reply trackers. A request opens a reply window: a tracker linked into the list of the requester,
 which names the connection a reply is expected from. Every critical section of the source is one
 method; trackers carry an identity that is never reused, so that their history can be told.
 */
module Reply {
  import opened Common
  import opened Lists

  const MAX_REQUESTS_PENDING := 128

  /** Who refers to a tracker besides the list it is linked into. */
  datatype Holder = QueueEntry | Caller

  /** A reply is expected from `src` by the requester `dst`. */
  datatype Tracker = Tracker(
    src: nat, dst: nat, cookie: nat, nameId: nat, deadline: nat, sync: bool, interrupted: bool, held: multiset<Holder>)

  datatype Notice = ReplyTimeout(dst: nat, cookie: nat) | ReplyDead(dst: nat, cookie: nat)

  /** Why a tracker left the list of its requester. */
  datatype How = Answered(replier: nat) | TimedOut(now: nat) | Died | RequesterGone | WaitEnded

  /** A tracker as it was when its window closed, and where in the log that can be read. */
  datatype Ended = Ended(t: Tracker, how: How, at: nat)

  /** A reply that passed the check of kdbus_conn_reply, through the window `id`. */
  datatype Pass = Pass(id: nat, replier: nat, dst: nat, cookie: nat)

  /** The window a notice is about, and whether the notice was queued for the end of that window. */
  datatype About = About(id: nat, closes: bool)

  /**
   What happened so far: the notices that were asked for, what each of them is about, the replies
   that passed, and the connections that left.
   */
  datatype Log = Log(notices: seq<Notice>, about: seq<About>, passed: seq<Pass>, gone: set<nat>)

  /** `known` are the windows ever opened, with the number of notices before that. */
  datatype Replies = Replies(
    trackers: map<nat, Tracker>, lists: map<nat, seq<nat>>,
    counts: map<nat, nat>, admitted: map<nat, nat>, refused: map<nat, nat>,
    known: map<nat, nat>, fates: map<nat, Ended>, log: Log)

  // ---------------------------------------------------------------- what every step keeps

  function CountOf(m: map<nat, nat>, c: nat): nat {
    if c in m then m[c] else 0
  }

  /** The live trackers of a requester. */
  ghost function Live(trackers: map<nat, Tracker>, c: nat): set<nat> {
    set id | id in trackers && trackers[id].dst == c
  }

  ghost predicate ListOk(s: Replies, c: nat)
    requires c in s.lists
  {
    NoDup(s.lists[c]) && forall id :: id in s.lists[c] ==> EntryOk(s, c, id)
  }

  /** A linked tracker belongs to the list, its window is open, and a connected peer is to reply. */
  ghost predicate EntryOk(s: Replies, c: nat, id: nat) {
    id in s.trackers && s.trackers[id].dst == c && id !in s.fates && id in s.known && s.trackers[id].src in s.lists
  }

  ghost predicate Linked(s: Replies, id: nat) {
    id in s.trackers && s.trackers[id].dst in s.lists && id in s.lists[s.trackers[id].dst]
  }

  /** A tracker lives as long as somebody refers to it; one nobody waits on has a deadline and can expire. */
  ghost predicate TrackerOk(s: Replies, id: nat)
    requires id in s.trackers
  {
    var t := s.trackers[id];
    && (t.held != multiset{} || Linked(s, id))
    && (!t.sync ==> t.deadline != 0 && !t.interrupted)
  }

  // ---------------------------------------------------------------- history

  /** The notice for a window that ends this way. Somebody who blocks on it is woken up instead. */
  function NoticeOf(t: Tracker, how: How): Option<Notice> {
    if t.sync then None
    else match how
      case TimedOut(_) => Some(ReplyTimeout(t.dst, t.cookie))
      case Died => Some(ReplyDead(t.dst, t.cookie))
      case _ => None
  }

  /** A window may end this way. */
  ghost predicate MayEnd(t: Tracker, how: How, gone: set<nat>) {
    match how
    case Answered(replier) => replier == t.src
    case TimedOut(now) => !t.sync ==> t.deadline <= now
    case Died => true
    case RequesterGone => t.dst in gone
    case WaitEnded => t.sync
  }

  /**
   The end of a window is on record: the reply that passed through it, or, if nobody waits on it,
   a notice of its own that was queued after the window opened.
   */
  ghost predicate FateOk(id: nat, since: nat, e: Ended, log: Log) {
    && MayEnd(e.t, e.how, log.gone)
    && (e.how.Answered? ==>
          e.at < |log.passed| && log.passed[e.at] == Pass(id, e.how.replier, e.t.dst, e.t.cookie))
    && (NoticeOf(e.t, e.how).Some? ==>
          && since <= e.at < |log.notices| && e.at < |log.about|
          && log.notices[e.at] == NoticeOf(e.t, e.how).value && log.about[e.at] == About(id, true))
  }

  /** A passed reply is the end of the window it passed through. */
  ghost predicate PassOk(fates: map<nat, Ended>, log: Log, i: int)
    requires 0 <= i < |log.passed|
  {
    var id := log.passed[i].id;
    id in fates && fates[id].how == Answered(log.passed[i].replier) && fates[id].at == i
  }

  /** A notice about a window is the end of that window. */
  ghost predicate AboutOk(fates: map<nat, Ended>, log: Log, k: int)
    requires 0 <= k < |log.about|
  {
    log.about[k].closes ==>
      var id := log.about[k].id;
      id in fates && NoticeOf(fates[id].t, fates[id].how).Some? && fates[id].at == k
  }

  ghost predicate Chronicle(known: map<nat, nat>, fates: map<nat, Ended>, log: Log) {
    && fates.Keys <= known.Keys && |log.about| == |log.notices|
    && (forall id :: id in known ==> known[id] <= |log.notices|)
    && (forall id {:trigger fates[id]} :: id in fates ==> FateOk(id, known[id], fates[id], log))
    && (forall i {:trigger PassOk(fates, log, i)} :: 0 <= i < |log.passed| ==> PassOk(fates, log, i))
    && (forall k {:trigger AboutOk(fates, log, k)} :: 0 <= k < |log.about| ==> AboutOk(fates, log, k))
  }

  /** The log once window `id` ended. */
  ghost function Recorded(log: Log, id: nat, t: Tracker, how: How): Log {
    var n := NoticeOf(t, how);
    if how.Answered? then log.(passed := log.passed + [Pass(id, how.replier, t.dst, t.cookie)])
    else if n.Some? then log.(notices := log.notices + [n.value], about := log.about + [About(id, true)])
    else log
  }

  /** Where it says so. */
  ghost function EndedNow(log: Log, t: Tracker, how: How): Ended {
    Ended(t, how, if how.Answered? then |log.passed| else |log.notices|)
  }

  lemma {:induction false} ChronicleClosed(
    known: map<nat, nat>, fates: map<nat, Ended>, log: Log, id: nat, t: Tracker, how: How)
    requires Chronicle(known, fates, log) && id in known && id !in fates && MayEnd(t, how, log.gone)
    ensures Chronicle(known, fates[id := EndedNow(log, t, how)], Recorded(log, id, t, how))
  {
    var fates', log' := fates[id := EndedNow(log, t, how)], Recorded(log, id, t, how);
    forall j | j in fates' ensures FateOk(j, known[j], fates'[j], log') {
      assert j != id ==> FateOk(j, known[j], fates[j], log);
    }
    forall i | 0 <= i < |log'.passed| ensures PassOk(fates', log', i) {
      assert i < |log.passed| ==> PassOk(fates, log, i);
    }
    forall k | 0 <= k < |log'.about| ensures AboutOk(fates', log', k) {
      assert k < |log.about| ==> AboutOk(fates, log, k);
    }
  }

  /** A notice that closes no window. */
  ghost function Noted(log: Log, n: Notice, id: nat): Log {
    log.(notices := log.notices + [n], about := log.about + [About(id, false)])
  }

  lemma {:induction false} ChronicleNoted(known: map<nat, nat>, fates: map<nat, Ended>, log: Log, n: Notice, id: nat)
    requires Chronicle(known, fates, log)
    ensures Chronicle(known, fates, Noted(log, n, id))
  {
    var log' := Noted(log, n, id);
    forall j | j in fates ensures FateOk(j, known[j], fates[j], log') {
      assert FateOk(j, known[j], fates[j], log);
    }
    forall i | 0 <= i < |log'.passed| ensures PassOk(fates, log', i) {
      assert PassOk(fates, log, i);
    }
    forall k | 0 <= k < |log'.about| ensures AboutOk(fates, log', k) {
      assert k < |log.about| ==> AboutOk(fates, log, k);
    }
  }

  lemma {:induction false} ChronicleGone(known: map<nat, nat>, fates: map<nat, Ended>, log: Log, c: nat)
    requires Chronicle(known, fates, log)
    ensures Chronicle(known, fates, log.(gone := log.gone + {c}))
  {
    var log' := log.(gone := log.gone + {c});
    forall j | j in fates ensures FateOk(j, known[j], fates[j], log') {
      assert FateOk(j, known[j], fates[j], log);
    }
    forall i | 0 <= i < |log'.passed| ensures PassOk(fates, log', i) {
      assert PassOk(fates, log, i);
    }
    forall k | 0 <= k < |log'.about| ensures AboutOk(fates, log', k) {
      assert AboutOk(fates, log, k);
    }
  }

  lemma {:induction false} ChronicleOpened(known: map<nat, nat>, fates: map<nat, Ended>, log: Log, id: nat)
    requires Chronicle(known, fates, log) && id !in known
    ensures Chronicle(known[id := |log.notices|], fates, log)
  {
    var known' := known[id := |log.notices|];
    forall j | j in fates ensures FateOk(j, known'[j], fates[j], log) {
      assert FateOk(j, known[j], fates[j], log);
    }
  }

  // ---------------------------------------------------------------- what every step keeps

  /**
   The counter is the number of live trackers plus the attempts under way, of which only the
   refused may exceed the limit.
   */
  ghost predicate Counted(s: Replies, c: nat) {
    CountRule(|Live(s.trackers, c)|, CountOf(s.counts, c), CountOf(s.admitted, c), CountOf(s.refused, c))
  }

  ghost predicate CountRule(live: nat, count: nat, admitted: nat, refused: nat) {
    count == live + admitted + refused && live + admitted <= MAX_REQUESTS_PENDING
  }

  ghost predicate AllOk(s: Replies) {
    && (forall c {:trigger ListOk(s, c)} :: c in s.lists ==> ListOk(s, c))
    && (forall id {:trigger TrackerOk(s, id)} :: id in s.trackers ==> TrackerOk(s, id))
    && (forall c: nat {:trigger Counted(s, c)} :: Counted(s, c))
  }

  ghost predicate History(s: Replies) {
    && Chronicle(s.known, s.fates, s.log)
    && (forall id {:trigger Linked(s, id)} :: id in s.known ==> id in s.fates || Linked(s, id))
  }

  // `== true` keeps the verifier from taking the predicate apart wherever it is to be proved.
  ghost predicate Sound(s: Replies) {
    (AllOk(s) && History(s)) == true
  }

  // ---------------------------------------------------------------- single changes

  /** kdbus_reply_new: an admitted attempt becomes a tracker its caller holds. */
  ghost function Born(s: Replies, id: nat, t: Tracker): Replies {
    s.(trackers := s.trackers[id := t], admitted := s.admitted[t.dst := Less(CountOf(s.admitted, t.dst))])
  }

  function Less(n: nat): nat {
    if n > 0 then n - 1 else 0
  }

  lemma {:induction false} LiveMore(trackers: map<nat, Tracker>, id: nat, t: Tracker, c: nat)
    requires id !in trackers
    ensures |Live(trackers[id := t], c)| == |Live(trackers, c)| + if t.dst == c then 1 else 0
  {
    assert Live(trackers[id := t], c) == Live(trackers, c) + if t.dst == c then {id} else {};
  }

  lemma {:induction false} LiveLess(trackers: map<nat, Tracker>, id: nat, c: nat)
    requires id in trackers
    ensures |Live(trackers - {id}, c)| == |Live(trackers, c)| - if trackers[id].dst == c then 1 else 0
  {
    assert Live(trackers - {id}, c) == Live(trackers, c) - {id};
    assert id in Live(trackers, c) <==> trackers[id].dst == c;
  }

  lemma {:induction false} LiveSame(trackers: map<nat, Tracker>, id: nat, t: Tracker, c: nat)
    requires id in trackers && t.dst == trackers[id].dst
    ensures Live(trackers[id := t], c) == Live(trackers, c)
  {
  }

  lemma {:induction false} BornSound(s: Replies, id: nat, t: Tracker)
    requires
      && Sound(s) && id !in s.trackers && id !in s.known && t.held != multiset{}
      && (!t.sync ==> t.deadline != 0 && !t.interrupted)
    requires CountOf(s.admitted, t.dst) > 0
    ensures Sound(Born(s, id, t))
  {
    var s' := Born(s, id, t);
    forall c | c in s'.lists ensures ListOk(s', c) {
      assert ListOk(s, c);
    }
    forall i | i in s'.trackers ensures TrackerOk(s', i) {
      assert i != id ==> TrackerOk(s, i);
    }
    forall c: nat ensures Counted(s', c) {
      assert Counted(s, c);
      LiveMore(s.trackers, id, t, c);
    }
    forall i | i in s'.known ensures i in s'.fates || Linked(s', i) {
      assert i in s.fates || Linked(s, i);
    }
  }

  function More(m: map<nat, nat>, c: nat, n: nat): map<nat, nat> {
    m[c := CountOf(m, c) + n]
  }

  /** The counter is raised before it is compared with the limit; `ok` tells what that found. */
  ghost function Attempted(s: Replies, c: nat, ok: bool): Replies {
    s.(counts := More(s.counts, c, 1), admitted := More(s.admitted, c, if ok then 1 else 0),
      refused := More(s.refused, c, if ok then 0 else 1))
  }

  lemma {:induction false} AttemptedSound(s: Replies, c: nat, ok: bool)
    requires Sound(s) && (ok ==> CountOf(s.counts, c) < MAX_REQUESTS_PENDING)
    ensures Sound(Attempted(s, c, ok))
  {
    var s' := Attempted(s, c, ok);
    Unmoved(s, s');
    forall d: nat ensures Counted(s', d) {
      assert Counted(s, d);
    }
  }

  /** A failed attempt lowers it again. */
  ghost function Undone(s: Replies, c: nat, wasAdmitted: bool): Replies {
    var s' := s.(counts := s.counts[c := Less(CountOf(s.counts, c))]);
    if wasAdmitted then s'.(admitted := s.admitted[c := Less(CountOf(s.admitted, c))])
    else s'.(refused := s.refused[c := Less(CountOf(s.refused, c))])
  }

  lemma {:induction false} UndoneSound(s: Replies, c: nat, wasAdmitted: bool)
    requires Sound(s) && CountOf(if wasAdmitted then s.admitted else s.refused, c) > 0
    ensures Sound(Undone(s, c, wasAdmitted)) && CountOf(s.counts, c) > 0
  {
    assert Counted(s, c);
    Unmoved(s, Undone(s, c, wasAdmitted));
    forall d: nat ensures Counted(Undone(s, c, wasAdmitted), d) {
      assert Counted(s, d);
    }
  }

  /** Lists and trackers are the same: so is what is said about them. */
  lemma {:induction false} Unmoved(s: Replies, s': Replies)
    requires Sound(s) && s'.trackers == s.trackers && s'.lists == s.lists && s'.fates == s.fates && s'.known == s.known
    requires Chronicle(s'.known, s'.fates, s'.log)
    ensures
      && (forall c :: c in s'.lists ==> ListOk(s', c)) && (forall id :: id in s'.trackers ==> TrackerOk(s', id))
      && History(s')
  {
    forall c | c in s'.lists ensures ListOk(s', c) {
      assert ListOk(s, c);
    }
    forall i | i in s'.trackers ensures TrackerOk(s', i) {
      assert TrackerOk(s, i);
    }
    forall i | i in s'.known ensures i in s'.fates || Linked(s', i) {
      assert i in s.fates || Linked(s, i);
    }
  }

  /** A notice that closes no window is queued. */
  ghost function Told(s: Replies, n: Notice, id: nat): Replies {
    s.(log := Noted(s.log, n, id))
  }

  lemma {:induction false} ToldSound(s: Replies, n: Notice, id: nat)
    requires Sound(s)
    ensures Sound(Told(s, n, id))
  {
    ChronicleNoted(s.known, s.fates, s.log, n, id);
    Unmoved(s, Told(s, n, id));
    forall d: nat ensures Counted(Told(s, n, id), d) {
      assert Counted(s, d);
    }
  }

  /** kdbus_reply_link, and the reference of the queue entry. */
  ghost function Opened(s: Replies, id: nat): Replies
    requires id in s.trackers
  {
    var t := s.trackers[id];
    s.(trackers := s.trackers[id := t.(held := t.held + multiset{QueueEntry})],
       lists := s.lists[t.dst := [id] + ListOf(s.lists, t.dst)], known := s.known[id := |s.log.notices|])
  }

  lemma {:induction false} OpenedSound(s: Replies, id: nat)
    requires
      && Sound(s) && id in s.trackers && id !in s.known && s.trackers[id].dst in s.lists
      && s.trackers[id].src in s.lists
    ensures Sound(Opened(s, id))
  {
    var s', d := Opened(s, id), s.trackers[id].dst;
    assert ListOk(s, d);
    assert id !in s.lists[d];
    ChronicleOpened(s.known, s.fates, s.log, id);
    forall c | c in s'.lists ensures ListOk(s', c) {
      assert ListOk(s, c);
    }
    forall i | i in s'.trackers ensures TrackerOk(s', i) {
      assert TrackerOk(s, i);
    }
    forall c: nat ensures Counted(s', c) {
      assert Counted(s, c);
      LiveSame(s.trackers, id, s'.trackers[id], c);
    }
    forall i | i in s'.known ensures i in s'.fates || Linked(s', i) {
      assert i != id ==> i in s.fates || Linked(s, i);
    }
  }

  /** A change to one tracker that keeps its requester. */
  ghost function Changed(s: Replies, id: nat, t: Tracker): Replies {
    s.(trackers := s.trackers[id := t])
  }

  lemma {:induction false} ChangedSound(s: Replies, id: nat, t: Tracker)
    requires Sound(s) && id in s.trackers && t.dst == s.trackers[id].dst
    requires
      && (t.held != multiset{} || Linked(s, id)) && (!t.sync ==> t.deadline != 0 && !t.interrupted)
      && (Linked(s, id) ==> t.src in s.lists)
    ensures Sound(Changed(s, id, t))
  {
    var s' := Changed(s, id, t);
    forall c | c in s'.lists ensures ListOk(s', c) {
      assert ListOk(s, c);
    }
    forall i | i in s'.trackers ensures TrackerOk(s', i) {
      assert TrackerOk(s, i);
    }
    forall c: nat ensures Counted(s', c) {
      assert Counted(s, c);
      LiveSame(s.trackers, id, t, c);
    }
    forall i | i in s'.known ensures i in s'.fates || Linked(s', i) {
      assert i in s.fates || Linked(s, i);
    }
  }

  /** __kdbus_reply_free. */
  ghost function Freed(s: Replies, id: nat): Replies
    requires id in s.trackers
  {
    var d := s.trackers[id].dst;
    s.(trackers := s.trackers - {id}, counts := s.counts[d := Less(CountOf(s.counts, d))])
  }

  lemma {:induction false} FreedSound(s: Replies, id: nat)
    requires AlmostSound(s, id) && id in s.trackers && !Linked(s, id)
    ensures Sound(Freed(s, id)) && CountOf(s.counts, s.trackers[id].dst) > 0
  {
    var s', d := Freed(s, id), s.trackers[id].dst;
    assert Counted(s, d) && id in Live(s.trackers, d);
    forall c | c in s'.lists ensures ListOk(s', c) {
      assert ListOk(s, c);
    }
    forall i | i in s'.trackers ensures TrackerOk(s', i) {
      assert TrackerOk(s, i);
    }
    forall c: nat ensures Counted(s', c) {
      assert Counted(s, c);
      LiveLess(s.trackers, id, c);
    }
    forall i | i in s'.known ensures i in s'.fates || Linked(s', i) {
      assert i in s.fates || Linked(s, i);
    }
  }

  /** Sound, but for the references of one tracker. */
  ghost predicate AlmostSound(s: Replies, id: nat) {
    (&& (forall c {:trigger ListOk(s, c)} :: c in s.lists ==> ListOk(s, c))
     && (forall i {:trigger TrackerOk(s, i)} :: i in s.trackers && i != id ==> TrackerOk(s, i))
     && (forall c: nat {:trigger Counted(s, c)} :: Counted(s, c))
     && History(s)) == true
  }

  /** kdbus_reply_unlink, before the list's reference is dropped. */
  ghost function Closed(s: Replies, id: nat, how: How): Replies
    requires id in s.trackers
  {
    var t := s.trackers[id];
    s.(lists := s.lists[t.dst := Minus(ListOf(s.lists, t.dst), id)],
       fates := s.fates[id := EndedNow(s.log, t, how)], log := Recorded(s.log, id, t, how))
  }

  lemma {:induction false} ClosedSound(s: Replies, id: nat, how: How)
    requires Sound(s) && Linked(s, id) && MayEnd(s.trackers[id], how, s.log.gone)
    ensures AlmostSound(Closed(s, id, how), id) && !Linked(Closed(s, id, how), id)
    ensures s.trackers[id].held != multiset{} ==> Sound(Closed(s, id, how))
  {
    var s', d := Closed(s, id, how), s.trackers[id].dst;
    assert ListOk(s, d) && EntryOk(s, d, id);
    ChronicleClosed(s.known, s.fates, s.log, id, s.trackers[id], how);
    MinusMembers(s.lists[d], id);
    forall c | c in s'.lists ensures ListOk(s', c) {
      assert ListOk(s, c);
    }
    forall i | i in s'.trackers && i != id ensures TrackerOk(s', i) {
      assert TrackerOk(s, i);
    }
    assert TrackerOk(s, id);
    forall c: nat ensures Counted(s', c) {
      assert Counted(s, c);
    }
    forall i | i in s'.known ensures i in s'.fates || Linked(s', i) {
      assert i in s.fates || Linked(s, i);
    }
    assert s.trackers[id].held != multiset{} ==> TrackerOk(s', id);
  }

  /** kdbus_reply_unlink of a linked tracker, which goes unless somebody still holds it. */
  ghost function Detached(s: Replies, id: nat): Replies
    requires id in s.trackers
  {
    var t := s.trackers[id];
    var last := t.held == multiset{};
    s.(lists := s.lists[t.dst := Minus(ListOf(s.lists, t.dst), id)],
       trackers := if last then s.trackers - {id} else s.trackers,
       counts := if last then s.counts[t.dst := Less(CountOf(s.counts, t.dst))] else s.counts)
  }

  /** The same, with the reason on record. */
  ghost function Unlinked(s: Replies, id: nat, how: How): Replies
    requires id in s.trackers
  {
    Detached(s, id).(
      fates := s.fates[id := EndedNow(s.log, s.trackers[id], how)], log := Recorded(s.log, id, s.trackers[id], how))
  }

  lemma {:induction false} UnlinkedSound(s: Replies, id: nat, how: How)
    requires Sound(s) && Linked(s, id) && MayEnd(s.trackers[id], how, s.log.gone)
    ensures Sound(Unlinked(s, id, how))
  {
    ClosedSound(s, id, how);
    if s.trackers[id].held == multiset{} {
      FreedSound(Closed(s, id, how), id);
      assert Unlinked(s, id, how) == Freed(Closed(s, id, how), id);
    } else {
      assert Unlinked(s, id, how) == Closed(s, id, how);
    }
  }

  /** kdbus_reply_unref by the given holder. */
  ghost function Unheld(s: Replies, id: nat, h: Holder): Replies
    requires id in s.trackers
  {
    var t := s.trackers[id];
    if t.held == multiset{h} && !Linked(s, id) then Freed(s, id) else Changed(s, id, t.(held := t.held - multiset{h}))
  }

  lemma {:induction false} UnheldIs(s: Replies, id: nat, h: Holder)
    requires id in s.trackers
    ensures var t, s' := s.trackers[id], Unheld(s, id, h);
      && s'.lists == s.lists
      && s'.trackers ==
         if t.held == multiset{h} && (t.dst in s.lists ==> id !in s.lists[t.dst]) then s.trackers - {id}
         else s.trackers[id := t.(held := t.held - multiset{h})]
  {
    var t := s.trackers[id];
    assert Linked(s, id) <==> t.dst in s.lists && id in s.lists[t.dst];
    if t.held == multiset{h} && !Linked(s, id) {
      assert Unheld(s, id, h) == Freed(s, id);
    } else {
      assert Unheld(s, id, h) == Changed(s, id, t.(held := t.held - multiset{h}));
    }
  }

  lemma {:induction false} UnheldSound(s: Replies, id: nat, h: Holder)
    requires Sound(s) && id in s.trackers
    ensures Sound(Unheld(s, id, h))
  {
    var t := s.trackers[id];
    assert TrackerOk(s, id);
    assert Linked(s, id) ==> ListOk(s, t.dst) && EntryOk(s, t.dst, id);
    if t.held == multiset{h} && !Linked(s, id) {
      FreedSound(s, id);
    } else {
      ChangedSound(s, id, t.(held := t.held - multiset{h}));
    }
  }

  /** A connection joins. */
  ghost function Joined(s: Replies, c: nat): Replies {
    s.(lists := s.lists[c := []])
  }

  lemma {:induction false} JoinedSound(s: Replies, c: nat)
    requires Sound(s) && c !in s.lists
    ensures Sound(Joined(s, c))
  {
    var s' := Joined(s, c);
    forall d | d in s'.lists ensures ListOk(s', d) {
      assert d != c ==> ListOk(s, d);
      forall i | i in s'.lists[d] ensures EntryOk(s', d, i) {
        assert EntryOk(s, d, i);
      }
    }
    forall i | i in s'.trackers ensures TrackerOk(s', i) {
      assert TrackerOk(s, i);
    }
    forall d: nat ensures Counted(s', d) {
      assert Counted(s, d);
    }
    forall i | i in s'.known ensures i in s'.fates || Linked(s', i) {
      assert i in s.fates || Linked(s, i);
    }
  }

  /** A connection is marked as disconnected. */
  ghost function Marked(s: Replies, c: nat): Replies {
    s.(log := s.log.(gone := s.log.gone + {c}))
  }

  lemma {:induction false} LeavingSound(s: Replies, c: nat)
    requires Sound(s)
    ensures Sound(Marked(s, c))
  {
    var s' := Marked(s, c);
    ChronicleGone(s.known, s.fates, s.log, c);
    forall d | d in s'.lists ensures ListOk(s', d) {
      assert ListOk(s, d);
      forall i | i in s'.lists[d] ensures EntryOk(s', d, i) {
        assert EntryOk(s, d, i);
      }
    }
    forall i | i in s'.trackers ensures TrackerOk(s', i) {
      assert TrackerOk(s, i);
    }
    forall d: nat ensures Counted(s', d) {
      assert Counted(s, d);
    }
    forall i | i in s'.known ensures i in s'.fates || Linked(s', i) {
      assert i in s.fates || Linked(s, i);
    }
  }

  /** No open window of another connection waits for c. */
  ghost predicate Unawaited(s: Replies, c: nat) {
    forall d, id :: d in s.lists && id in s.lists[d] && id in s.trackers ==> s.trackers[id].src != c
  }

  ghost function Departed(s: Replies, c: nat): Replies {
    s.(lists := s.lists - {c})
  }

  lemma {:induction false} DepartedSound(s: Replies, c: nat)
    requires Sound(s) && c in s.lists && s.lists[c] == [] && Unawaited(s, c)
    ensures Sound(Departed(s, c))
  {
    var s' := Departed(s, c);
    forall d | d in s'.lists ensures ListOk(s', d) {
      assert ListOk(s, d);
      forall i | i in s'.lists[d] ensures EntryOk(s', d, i) {
        assert EntryOk(s, d, i);
      }
    }
    forall i | i in s'.trackers ensures TrackerOk(s', i) {
      assert TrackerOk(s, i);
    }
    forall d: nat ensures Counted(s', d) {
      assert Counted(s, d);
    }
    forall i | i in s'.known ensures i in s'.fates || Linked(s', i) {
      assert i in s.fates || Linked(s, i);
    }
  }

  // ---------------------------------------------------------------- main results

  /** The log shows why the window is closed. */
  ghost predicate Explained(s: Replies, id: nat)
    requires id in s.fates && id in s.known
  {
    var e := s.fates[id];
    || (e.how == Answered(e.t.src) && Pass(id, e.t.src, e.t.dst, e.t.cookie) in s.log.passed)
    || (e.how.TimedOut? && e.t.deadline <= e.how.now && OwnNotice(s, id, ReplyTimeout(e.t.dst, e.t.cookie)))
    || (e.how == Died && OwnNotice(s, id, ReplyDead(e.t.dst, e.t.cookie)))
    || (e.how == RequesterGone && e.t.dst in s.log.gone)
    || e.t.sync
  }

  /** The notice was asked for after the window opened, and for no other window. */
  ghost predicate OwnNotice(s: Replies, id: nat, n: Notice)
    requires id in s.known
  {
    exists k ::
      && s.known[id] <= k < |s.log.notices| == |s.log.about|
      && s.log.notices[k] == n && s.log.about[k] == About(id, true)
  }

  /**
   No request ends without cause: a window that was opened is still open, or it was closed by a
   reply of the expected replier that passed through it, by a timeout or death notice of its own
   to the requester, by the requester's disconnect or, if somebody blocks on it, with that wait.
   */
  lemma {:induction false} NoSilentEnd(s: Replies, id: nat)
    requires Sound(s) && id in s.known
    ensures Linked(s, id) || (id in s.fates && Explained(s, id))
  {
    assert id in s.fates || Linked(s, id);
    if id in s.fates {
      var e := s.fates[id];
      assert FateOk(id, s.known[id], e, s.log);
      if e.how.Answered? {
        assert s.log.passed[e.at] in s.log.passed;
      }
    }
  }

  /** A request admits at most one reply. */
  lemma {:induction false} OneReply(s: Replies, i: nat, j: nat)
    requires Sound(s) && i < |s.log.passed| && j < |s.log.passed| && s.log.passed[i].id == s.log.passed[j].id
    ensures i == j
  {
    assert PassOk(s.fates, s.log, i) && PassOk(s.fates, s.log, j);
  }

  /** A reply passed through a window that expected its sender, and that is closed ever since. */
  lemma {:induction false} PassedOnce(s: Replies, i: nat)
    requires Sound(s) && i < |s.log.passed|
    ensures var p := s.log.passed[i];
      && p.id in s.fates && !Linked(s, p.id) && s.fates[p.id].how == Answered(p.replier)
      && s.fates[p.id].t.src == p.replier && s.fates[p.id].t.dst == p.dst && s.fates[p.id].t.cookie == p.cookie
  {
    var id := s.log.passed[i].id;
    assert PassOk(s.fates, s.log, i);
    assert FateOk(id, s.known[id], s.fates[id], s.log);
    NotInLists(s, id);
  }

  lemma {:induction false} NotInLists(s: Replies, id: nat)
    requires Sound(s) && id in s.fates
    ensures !Linked(s, id) && forall c :: c in s.lists ==> id !in s.lists[c]
  {
    forall c | c in s.lists ensures id !in s.lists[c] {
      assert ListOk(s, c);
      assert id in s.lists[c] ==> EntryOk(s, c, id);
    }
  }

  /** A requester never has more than 128 trackers, whatever attempts are under way. */
  lemma {:induction false} LiveBound(s: Replies, c: nat)
    requires Sound(s)
    ensures |Live(s.trackers, c)| <= MAX_REQUESTS_PENDING
  {
    assert Counted(s, c);
  }

  /** A later state of a run: the log only grows, and fates are final. */
  ghost predicate Later(s: Replies, s': Replies) {
    (&& s.log.gone <= s'.log.gone && s.log.notices <= s'.log.notices && s.log.about <= s'.log.about
     && s.log.passed <= s'.log.passed
     && (forall id :: id in s.known ==> id in s'.known && s'.known[id] == s.known[id])
     && (forall id :: id in s.fates ==> id in s'.fates && s'.fates[id] == s.fates[id])) == true
  }

  lemma {:induction false} LaterTransitive(s: Replies, s': Replies, s'': Replies)
    requires Later(s, s') && Later(s', s'')
    ensures Later(s, s'')
  {
  }

  /** A window that was closed is not open in any later state. */
  lemma {:induction false} ClosedForGood(s: Replies, s': Replies, id: nat)
    requires Sound(s') && Later(s, s') && id in s.fates
    ensures !Linked(s', id)
  {
    NotInLists(s', id);
  }

  // ---------------------------------------------------------------- closing several windows

  /** A list without the given windows. */
  ghost function Filtered(l: seq<nat>, ids: set<nat>): seq<nat> {
    if l == [] then [] else (if l[0] in ids then [] else [l[0]]) + Filtered(l[1..], ids)
  }

  lemma {:induction false} FilteredIn(l: seq<nat>, ids: set<nat>, x: nat)
    ensures x in Filtered(l, ids) <==> x in l && x !in ids
    decreases |l|
  {
    if l != [] {
      assert l == [l[0]] + l[1..];
      FilteredIn(l[1..], ids, x);
    }
  }

  lemma {:induction false} FilteredNone(l: seq<nat>, ids: set<nat>)
    requires forall x :: x in l ==> x !in ids
    ensures Filtered(l, ids) == l
    decreases |l|
  {
    if l != [] {
      FilteredNone(l[1..], ids);
    }
  }

  lemma {:induction false} FilteredTwice(l: seq<nat>, ids: set<nat>, more: set<nat>)
    ensures Filtered(Filtered(l, ids), more) == Filtered(l, ids + more)
    decreases |l|
  {
    if l != [] {
      var f := Filtered(l[1..], ids);
      FilteredTwice(l[1..], ids, more);
      assert ([l[0]] + f)[1..] == f;
      assert [] + f == f;
    }
  }

  lemma {:induction false} FilteredOne(l: seq<nat>, id: nat)
    requires NoDup(l)
    ensures Filtered(l, {id}) == Minus(l, id)
    decreases |l|
  {
    if l != [] && l[0] == id {
      FilteredNone(l[1..], {id});
    } else if l != [] {
      FilteredOne(l[1..], id);
    }
  }

  /** What a window is about, whoever refers to its tracker. */
  function Bare(t: Tracker): Tracker {
    t.(held := multiset{})
  }

  /** The window ended this way since state s0; the notice for it, if any, was queued since then. */
  ghost predicate EndedAs(s0: Replies, s: Replies, id: nat, how: How) {
    && id in s0.trackers && id in s.fates && s.fates[id].how == how && Bare(s.fates[id].t) == Bare(s0.trackers[id])
    && (NoticeOf(s0.trackers[id], how).Some? ==>
          NoticedSince(s0.log, s.log, NoticeOf(s0.trackers[id], how).value, id, s.fates[id].at))
  }

  ghost predicate NoticedSince(log0: Log, log: Log, n: Notice, id: nat, at: nat) {
    |log0.notices| <= at < |log.notices| && at < |log.about| && log.notices[at] == n && log.about[at] == About(id, true)
  }

  lemma {:induction false} EndedEarlier(s0: Replies, s1: Replies, s: Replies, id: nat, how: How)
    requires EndedAs(s1, s, id, how) && |s0.log.notices| <= |s1.log.notices|
    requires id in s0.trackers && Bare(s0.trackers[id]) == Bare(s1.trackers[id])
    ensures EndedAs(s0, s, id, how)
  {
    assert NoticeOf(Bare(s0.trackers[id]), how) == NoticeOf(s0.trackers[id], how);
  }

  lemma {:induction false} EndedLater(s0: Replies, s: Replies, s': Replies, id: nat, how: How)
    requires EndedAs(s0, s, id, how) && Later(s, s')
    ensures EndedAs(s0, s', id, how)
  {
  }

  /** Lists lose exactly the given windows, trackers only those. */
  ghost predicate OnlyDetached(s0: Replies, s: Replies, ids: set<nat>) {
    (&& s.lists.Keys == s0.lists.Keys && (forall d :: d in s0.lists ==> s.lists[d] == Filtered(s0.lists[d], ids))
     && (forall j :: j in s.trackers ==> j in s0.trackers && s.trackers[j] == s0.trackers[j])
     && (forall j :: j in s0.trackers && j !in ids ==> j in s.trackers)) == true
  }

  ghost predicate AllEnded(s0: Replies, s: Replies, ids: set<nat>, how: How) {
    && (forall j :: j in ids ==> EndedAs(s0, s, j, how))
    && (forall j :: j in s.fates && j !in ids ==> j in s0.fates && s.fates[j] == s0.fates[j])
  }

  /** Exactly the given windows were closed, this way: all others are as they were. */
  ghost predicate OnlyClosed(s0: Replies, s: Replies, ids: set<nat>, how: How) {
    (&& OnlyDetached(s0, s, ids) && AllEnded(s0, s, ids, how) && Later(s0, s)
     && s.known == s0.known && s.log.gone == s0.log.gone && s.log.passed == s0.log.passed) == true
  }

  lemma {:induction false} NoneClosed(s: Replies, how: How)
    ensures OnlyClosed(s, s, {}, how)
  {
    forall d | d in s.lists ensures s.lists[d] == Filtered(s.lists[d], {}) {
      FilteredNone(s.lists[d], {});
    }
  }

  /** A linked tracker is on one list, once, and its end is not on record. */
  ghost predicate OnOneList(s: Replies, id: nat) {
    (&& id in s.trackers && s.trackers[id].dst in s.lists && NoDup(s.lists[s.trackers[id].dst])
     && (forall d :: d in s.lists && d != s.trackers[id].dst ==> id !in s.lists[d])
     && id !in s.fates && id in s.known && |s.log.about| == |s.log.notices|) == true
  }

  lemma {:induction false} LinkedOnce(s: Replies, id: nat)
    requires Sound(s) && Linked(s, id)
    ensures OnOneList(s, id)
  {
    assert ListOk(s, s.trackers[id].dst) && EntryOk(s, s.trackers[id].dst, id);
    forall d | d in s.lists && d != s.trackers[id].dst ensures id !in s.lists[d] {
      assert ListOk(s, d);
      assert id in s.lists[d] ==> EntryOk(s, d, id);
    }
  }

  lemma {:induction false} UnlinkedLater(s: Replies, id: nat, how: How)
    requires OnOneList(s, id)
    ensures Later(s, Unlinked(s, id, how))
  {
  }

  /** All that the owner of a window has to know to close it. */
  lemma {:induction false} MayClose(s: Replies, id: nat, how: How)
    requires Sound(s) && Linked(s, id) && MayEnd(s.trackers[id], how, s.log.gone)
    ensures Sound(Unlinked(s, id, how)) && Later(s, Unlinked(s, id, how))
  {
    UnlinkedSound(s, id, how);
    LinkedOnce(s, id);
    UnlinkedLater(s, id, how);
  }

  lemma {:induction false} OneDetached(s: Replies, id: nat, how: How)
    requires OnOneList(s, id)
    ensures OnlyDetached(s, Unlinked(s, id, how), {id})
  {
    var s' := Unlinked(s, id, how);
    forall d | d in s.lists ensures s'.lists[d] == Filtered(s.lists[d], {id}) {
      if d == s.trackers[id].dst {
        FilteredOne(s.lists[d], id);
      } else {
        FilteredNone(s.lists[d], {id});
      }
    }
  }

  lemma {:induction false} OneEnded(s: Replies, id: nat, how: How)
    requires OnOneList(s, id) && !how.Answered?
    ensures AllEnded(s, Unlinked(s, id, how), {id}, how)
  {
  }

  lemma {:induction false} OneClosed(s: Replies, id: nat, how: How)
    requires Sound(s) && Linked(s, id) && !how.Answered?
    ensures OnlyClosed(s, Unlinked(s, id, how), {id}, how)
  {
    LinkedOnce(s, id);
    OneDetached(s, id, how);
    OneEnded(s, id, how);
    UnlinkedLater(s, id, how);
  }

  lemma {:induction false} DetachedMore(s0: Replies, s: Replies, s': Replies, ids: set<nat>, more: set<nat>)
    requires OnlyDetached(s0, s, ids) && OnlyDetached(s, s', more)
    ensures OnlyDetached(s0, s', ids + more)
  {
    forall d | d in s0.lists ensures s'.lists[d] == Filtered(s0.lists[d], ids + more) {
      FilteredTwice(s0.lists[d], ids, more);
    }
  }

  lemma {:induction false} ClosedMore(s0: Replies, s: Replies, s': Replies, ids: set<nat>, more: set<nat>, how: How)
    requires OnlyClosed(s0, s, ids, how) && OnlyClosed(s, s', more, how)
    ensures OnlyClosed(s0, s', ids + more, how)
  {
    DetachedMore(s0, s, s', ids, more);
    LaterTransitive(s0, s, s');
    forall j | j in ids + more ensures EndedAs(s0, s', j, how) {
      if j in more {
        assert EndedAs(s, s', j, how);
        EndedEarlier(s0, s, s', j, how);
      } else {
        EndedLater(s0, s, s', j, how);
      }
    }
  }

  lemma {:induction false} OneMoreClosed(s0: Replies, s: Replies, ids: set<nat>, id: nat, how: How)
    requires Sound(s) && OnlyClosed(s0, s, ids, how) && Linked(s, id) && !how.Answered?
    ensures OnlyClosed(s0, Unlinked(s, id, how), ids + {id}, how)
  {
    OneClosed(s, id, how);
    ClosedMore(s0, s, Unlinked(s, id, how), ids, {id}, how);
  }

  /** Of the windows that were open exactly the given ones are closed, and the others are as they were. */
  ghost predicate OthersOpen(s0: Replies, s: Replies, ids: set<nat>) {
    && (forall id :: Linked(s, id) <==> Linked(s0, id) && id !in ids)
    && (forall id :: Linked(s, id) ==> s.trackers[id] == s0.trackers[id])
  }

  lemma {:induction false} StillOpen(s0: Replies, s: Replies, ids: set<nat>)
    requires Sound(s0) && OnlyDetached(s0, s, ids)
    ensures OthersOpen(s0, s, ids)
  {
    forall id ensures Linked(s, id) <==> Linked(s0, id) && id !in ids {
      if id in s0.trackers && s0.trackers[id].dst in s0.lists {
        FilteredIn(s0.lists[s0.trackers[id].dst], ids, id);
      }
    }
  }

  lemma {:induction false} OthersStay(s: Replies, id: nat, how: How)
    requires Sound(s) && Linked(s, id)
    ensures OthersOpen(s, Unlinked(s, id, how), {id})
  {
    LinkedOnce(s, id);
    OneDetached(s, id, how);
    StillOpen(s, Unlinked(s, id, how), {id});
  }

  /** A window that is not closed yet is still in its list. */
  lemma {:induction false} NotYetClosed(s0: Replies, s: Replies, ids: set<nat>, c: nat, id: nat)
    requires Sound(s0) && OnlyDetached(s0, s, ids) && c in s0.lists && id in s0.lists[c] && id !in ids
    ensures Linked(s0, id) && Linked(s, id) && s.trackers[id] == s0.trackers[id] && s0.trackers[id].dst == c
  {
    assert ListOk(s0, c) && EntryOk(s0, c, id);
    StillOpen(s0, s, ids);
  }

  // ---------------------------------------------------------------- the bus

  class Bus {
    var trackers: map<nat, Tracker>
    var lists: map<nat, seq<nat>>
    var counts: map<nat, nat>
    var notices: seq<Notice>
    var nextId: nat
    ghost var admitted: map<nat, nat>
    ghost var refused: map<nat, nat>
    ghost var known: map<nat, nat>
    ghost var fates: map<nat, Ended>
    ghost var about: seq<About>
    ghost var passed: seq<Pass>
    ghost var gone: set<nat>

    ghost function Now(): Replies
      reads this
    {
      Replies(trackers, lists, counts, admitted, refused, known, fates, Log(notices, about, passed, gone))
    }

    ghost predicate Valid()
      reads this
    {
      Sound(Now()) && (forall id :: id in trackers || id in known ==> id < nextId)
    }

    constructor ()
      ensures Valid() && lists == map[] && trackers == map[]
    {
      trackers, lists, counts, notices, nextId := map[], map[], map[], [], 0;
      admitted, refused, known, fates, about, passed, gone := map[], map[], map[], map[], [], [], {};
    }

    method Join(c: nat)
      requires Valid() && c !in lists
      modifies this`lists
      ensures Valid() && Now() == Joined(old(Now()), c) && Later(old(Now()), Now())
      ensures lists == old(lists)[c := []]
    {
      JoinedSound(Now(), c);
      lists := lists[c := []];
    }

    /** The first half of kdbus_reply_new: raise the counter, compare it with the limit. */
    method Attempt(dst: nat) returns (ok: bool)
      requires Valid()
      modifies this`counts, this`admitted, this`refused
      ensures Valid() && Now() == Attempted(old(Now()), dst, ok) && Later(old(Now()), Now())
      ensures ok <==> CountOf(old(counts), dst) < MAX_REQUESTS_PENDING
      ensures ok <==> dst in counts && counts[dst] <= 128
      ensures counts == old(counts)[dst := 1 + if dst in old(counts) then old(counts)[dst] else 0]
    {
      AttemptedSound(Now(), dst, CountOf(counts, dst) < MAX_REQUESTS_PENDING);
      counts := More(counts, dst, 1);
      ok := !(counts[dst] > MAX_REQUESTS_PENDING);
      admitted, refused := More(admitted, dst, if ok then 1 else 0), More(refused, dst, if ok then 0 else 1);
    }

    /** Its error path: the limit was exceeded or the allocation failed. */
    method Undo(dst: nat, ghost wasAdmitted: bool)
      requires Valid() && CountOf(if wasAdmitted then admitted else refused, dst) > 0
      modifies this`counts, this`admitted, this`refused
      ensures Valid() && Now() == Undone(old(Now()), dst, wasAdmitted) && Later(old(Now()), Now())
      ensures dst in old(counts) && old(counts)[dst] > 0 && counts == old(counts)[dst := old(counts)[dst] - 1]
    {
      UndoneSound(Now(), dst, wasAdmitted);
      counts := counts[dst := CountOf(counts, dst) - 1];
      if wasAdmitted {
        admitted := admitted[dst := CountOf(admitted, dst) - 1];
      } else {
        refused := refused[dst := CountOf(refused, dst) - 1];
      }
    }

    /** Its success path. Messages that expect a reply carry a timeout. */
    method Create(src: nat, dst: nat, cookie: nat, nameId: nat, timeout: nat, sync: bool) returns (id: nat)
      requires Valid() && CountOf(admitted, dst) > 0 && timeout != 0
      modifies this`trackers, this`nextId, this`admitted
      ensures Valid() && id == old(nextId) && id !in known && Later(old(Now()), Now())
      ensures Now() == Born(old(Now()), id, Tracker(src, dst, cookie, nameId, timeout, sync, false, multiset{Caller}))
      ensures trackers ==
        old(trackers)[id := Tracker(src, dst, cookie, nameId, timeout, sync, false, multiset{Caller})]
    {
      id := nextId;
      var t := Tracker(src, dst, cookie, nameId, timeout, sync, false, multiset{Caller});
      BornSound(Now(), id, t);
      trackers, nextId := trackers[id := t], nextId + 1;
      admitted := admitted[dst := CountOf(admitted, dst) - 1];
    }

    /** kdbus_conn_entry_insert of a message with a tracker; both ends are connected. */
    method Insert(id: nat)
      requires Valid() && id in trackers && id !in known && trackers[id].dst in lists && trackers[id].src in lists
      modifies this`trackers, this`lists, this`known
      ensures Valid() && id in old(trackers) && Now() == Opened(old(Now()), id) && Later(old(Now()), Now())
      ensures var t := old(trackers)[id];
        && t.dst in old(lists) && lists == old(lists)[t.dst := [id] + old(lists)[t.dst]] && id in known
        && trackers == old(trackers)[id := t.(held := t.held + multiset{QueueEntry})]
    {
      OpenedSound(Now(), id);
      var t := trackers[id];
      lists := lists[t.dst := [id] + lists[t.dst]];
      trackers := trackers[id := t.(held := t.held + multiset{QueueEntry})];
      known := known[id := |notices|];
    }

    method Unref(id: nat, h: Holder)
      requires Valid() && id in trackers && h in trackers[id].held
      modifies this`trackers, this`counts
      ensures id in old(trackers) && Now() == Unheld(old(Now()), id, h)
      ensures lists == old(lists) && var t := old(trackers)[id];
        trackers ==
          if t.held == multiset{h} && (t.dst in lists ==> id !in lists[t.dst]) then old(trackers) - {id}
          else old(trackers)[id := t.(held := t.held - multiset{h})]
      ensures Valid() && Later(old(Now()), Now())
    {
      MayRelease(Now(), id, h);
      UnheldIs(Now(), id, h);
      var t := trackers[id];
      if t.held == multiset{h} && !(t.dst in lists && id in lists[t.dst]) {
        Free(id);
      } else {
        trackers := trackers[id := t.(held := t.held - multiset{h})];
      }
    }

    method Free(id: nat)
      requires id in trackers
      modifies this`trackers, this`counts
      ensures id in old(trackers) && Now() == Freed(old(Now()), id)
    {
      var d := trackers[id].dst;
      trackers, counts := trackers - {id}, counts[d := Less(CountOf(counts, d))];
    }

    /** What is left to do for a caller of this one is to say why the window closed. */
    method Unlink(id: nat)
      requires id in trackers
      modifies this`trackers, this`lists, this`counts
      ensures id in old(trackers) && Now() == if Linked(old(Now()), id) then Detached(old(Now()), id) else old(Now())
    {
      var t := trackers[id];
      if t.dst in lists && id in lists[t.dst] {
        lists := lists[t.dst := Minus(lists[t.dst], id)];
        if t.held == multiset{} {
          Free(id);
        }
      }
    }

    /** kdbus_reply_find: the first match of the list, by anybody if no replier is given. */
    method Find(replier: Option<nat>, dst: nat, cookie: nat) returns (r: Option<nat>)
      requires Valid() && dst in lists
      ensures r.Some? ==> FirstMatch(Now(), lists[dst], r.value, replier, cookie)
      ensures r.None? ==> forall id :: id in lists[dst] ==> !Expects(Now(), id, replier, cookie)
      ensures forall id :: id in lists[dst] ==> id in trackers
      ensures r.Some? ==>
        exists k ::
          && 0 <= k < |lists[dst]| && lists[dst][k] == r.value
          && trackers[r.value].cookie == cookie && (replier.None? || trackers[r.value].src == replier.value)
          && forall j :: 0 <= j < k ==>
               var t := trackers[lists[dst][j]];
               t.cookie != cookie || (replier.Some? && t.src != replier.value)
      ensures r.None? ==> forall id :: id in lists[dst] ==>
        trackers[id].cookie != cookie || (replier.Some? && trackers[id].src != replier.value)
    {
      assert ListOk(Now(), dst);
      var i := 0;
      while i < |lists[dst]|
        invariant 0 <= i <= |lists[dst]| && forall k :: 0 <= k < i ==> !Expects(Now(), lists[dst][k], replier, cookie)
      {
        var id := lists[dst][i];
        assert id in lists[dst] && EntryOk(Now(), dst, id);
        if trackers[id].cookie == cookie && (replier.None? || trackers[id].src == replier.value) {
          return Some(id);
        }
        i := i + 1;
      }
      return None;
    }

    /**
     The check of kdbus_conn_reply. A reply passes only through an open window of the destination
     for that cookie which expects the sender, and closes it, before it is queued.
     */
    method Reply(replier: nat, dst: nat, cookie: nat) returns (r: Option<nat>)
      requires Valid()
      modifies this`trackers, this`lists, this`counts, this`fates, this`passed
      ensures Valid() && Later(old(Now()), Now())
      ensures r.Some? ==> dst in old(lists) && FirstMatch(old(Now()), old(lists)[dst], r.value, Some(replier), cookie)
      ensures r.Some? ==>
        Linked(old(Now()), r.value) && Now() == Unlinked(old(Now()), r.value, Answered(replier))
      ensures r.Some? ==> OthersOpen(old(Now()), Now(), {r.value})
      ensures r.None? ==>
        && Now() == old(Now())
        && (dst in lists ==> forall id :: id in lists[dst] ==> !Expects(Now(), id, Some(replier), cookie))
      ensures r.Some? <==>
        && dst in old(lists)
        && exists id ::
             && id in old(lists)[dst] && id in old(trackers)
             && old(trackers)[id].src == replier && old(trackers)[id].cookie == cookie
      ensures r.Some? ==>
        && dst in old(lists) && r.value in old(lists)[dst] && r.value in old(trackers) && dst in lists
        && old(trackers)[r.value].src == replier && old(trackers)[r.value].cookie == cookie
        && r.value !in lists[dst] && passed == old(passed) + [Pass(r.value, replier, dst, cookie)]
        && notices == old(notices)
    {
      if dst !in lists {
        return None;
      }
      r := Find(Some(replier), dst, cookie);
      if r.Some? {
        ghost var t, how := trackers[r.value], Answered(replier);
        InList(dst, r.value);
        MayClose(Now(), r.value, how);
        OthersStay(Now(), r.value, how);
        ghost var s := Unlinked(Now(), r.value, how);
        ReplyCloses(Now(), r.value, replier, dst, cookie);
        Unlink(r.value);
        fates := fates[r.value := Ended(t, how, |passed|)];
        passed := passed + [Pass(r.value, replier, dst, cookie)];
        assert Now() == s;
      }
    }

    /** The start of kdbus_conn_call: an interrupted call goes on waiting for the first window with its cookie. */
    method Resume(src: nat, cookie: nat) returns (r: Option<nat>)
      requires Valid() && src in lists
      modifies this`trackers
      ensures Valid() && Later(old(Now()), Now())
      ensures r.Some? ==>
        FirstMatch(old(Now()), lists[src], r.value, None, cookie) && Resumed(old(Now()), Now(), r.value)
      ensures r.None? ==>
        && Now() == old(Now())
        && forall id :: FirstMatch(Now(), lists[src], id, None, cookie) ==> !trackers[id].interrupted
      ensures r.Some? ==>
        && r.value in lists[src] && r.value in old(trackers) && old(trackers)[r.value].interrupted
        && trackers == old(trackers)[r.value := old(trackers)[r.value].(
             interrupted := false, held := old(trackers)[r.value].held + multiset{Caller})]
        && trackers[r.value].cookie == cookie
    {
      r := Find(None, src, cookie);
      if r.Some? {
        InList(src, r.value);
        var t := trackers[r.value];
        if t.interrupted {
          ChangedSound(Now(), r.value, t.(interrupted := false, held := t.held + multiset{Caller}));
          trackers := trackers[r.value := t.(interrupted := false, held := t.held + multiset{Caller})];
        } else {
          r := None;
        }
      }
    }

    /** The interrupted end of kdbus_conn_wait_reply: the window stays. */
    method Interrupt(id: nat)
      requires Valid() && id in trackers && trackers[id].sync
      modifies this`trackers
      ensures
        && Valid() && Now() == Changed(old(Now()), id, old(trackers)[id].(interrupted := true))
        && Later(old(Now()), Now()) && trackers == old(trackers)[id := old(trackers)[id].(interrupted := true)]
    {
      var t := trackers[id].(interrupted := true);
      assert TrackerOk(Now(), id);
      assert Linked(Now(), id) ==> ListOk(Now(), t.dst) && EntryOk(Now(), t.dst, id);
      ChangedSound(Now(), id, t);
      trackers := trackers[id := t];
    }

    /** A tracker is linked, as one of the given connection. */
    lemma InList(c: nat, id: nat)
      requires Valid() && c in lists && id in lists[c]
      ensures Linked(Now(), id) && trackers[id].dst == c && trackers[id].src in lists && id !in fates && id in known
      ensures NoDup(lists[c]) && (!trackers[id].sync ==> trackers[id].deadline != 0 && !trackers[id].interrupted)
    {
      assert ListOk(Now(), c) && EntryOk(Now(), c, id) && TrackerOk(Now(), id);
    }

    /** A window closes without a reply, and its requester hears of it through the notice, if any. */
    method Close(id: nat, notice: Option<Notice>, ghost how: How)
      requires Valid() && Linked(Now(), id) && !how.Answered? && MayEnd(trackers[id], how, gone)
      requires notice == NoticeOf(trackers[id], how)
      modifies this`trackers, this`lists, this`counts, this`fates, this`notices, this`about
      ensures id in old(trackers) && Now() == Unlinked(old(Now()), id, how)
      ensures Valid() && Later(old(Now()), Now())
    {
      ghost var t, at, s := trackers[id], |notices|, Unlinked(Now(), id, how);
      MayClose(Now(), id, how);
      if notice.Some? {
        notices, about := notices + [notice.value], about + [About(id, true)];
      }
      Unlink(id);
      fates := fates[id := Ended(t, how, at)];
      assert Now() == s;
    }

    method ScanOne(c: nat, id: nat, now: nat, next: Option<nat>) returns (next': Option<nat>)
      requires Valid() && c in lists && id in lists[c]
      modifies this`trackers, this`lists, this`counts, this`fates, this`notices, this`about
      ensures
        && Valid() && Later(old(Now()), Now()) && id in old(trackers) && next' == Earlier(old(trackers)[id], now, next)
      ensures Now() == if Stays(old(trackers)[id], now) then old(Now()) else Unlinked(old(Now()), id, TimedOut(now))
    {
      InList(c, id);
      var t := trackers[id];
      next' := next;
      if t.sync && !t.interrupted {
        return;
      }
      if t.deadline > now {
        if next.None? || next.value > t.deadline {
          next' := Some(t.deadline);
        }
        return;
      }
      Close(id, if t.deadline != 0 && !t.interrupted then Some(ReplyTimeout(c, t.cookie)) else None, TimedOut(now));
    }

    /**
     kdbus_reply_list_scan_work, at time `now`, for a connected connection. What is left are the windows of
     blocked callers and those whose time is yet to come, the first of which is when to scan again.
     */
    method Scan(c: nat, now: nat) returns (next: Option<nat>)
      requires Valid() && c in lists
      modifies this`trackers, this`lists, this`counts, this`fates, this`notices, this`about
      ensures Valid() && OnlyClosed(old(Now()), Now(), Expired(old(trackers), old(lists)[c], now), TimedOut(now))
      ensures OthersOpen(old(Now()), Now(), Expired(old(trackers), old(lists)[c], now))
      ensures c in lists && forall id :: id in lists[c] ==> id in trackers
      ensures forall id :: id in old(lists)[c] ==>
        && id in old(trackers) && var t := old(trackers)[id];
        && (id in lists[c] <==> (t.sync && !t.interrupted) || t.deadline > now)
        && (!t.sync && t.deadline <= now ==> ReplyTimeout(c, t.cookie) in notices[|old(notices)|..])
      ensures next.Some? <==> exists id :: id in lists[c] && (!trackers[id].sync || trackers[id].interrupted)
      ensures next.Some? ==>
        && next.value > now
        && (exists id ::
              id in lists[c] && (!trackers[id].sync || trackers[id].interrupted) && trackers[id].deadline == next.value)
        && forall id ::
              id in lists[c] && (!trackers[id].sync || trackers[id].interrupted) ==> next.value <= trackers[id].deadline
    {
      ghost var s0 := Now();
      next := ScanList(c, now);
      StillOpen(s0, Now(), Expired(s0.trackers, s0.lists[c], now));
      ScanLeaves(s0, Now(), c, now);
      ScanTells(s0, Now(), c, now);
      ScanWakes(s0, Now(), c, now, next);
    }

    /** The walk through the list. */
    method ScanList(c: nat, now: nat) returns (next: Option<nat>)
      requires Valid() && c in lists
      modifies this`trackers, this`lists, this`counts, this`fates, this`notices, this`about
      ensures Valid() && OnlyClosed(old(Now()), Now(), Expired(old(trackers), old(lists)[c], now), TimedOut(now))
      ensures NextOk(old(trackers), old(lists)[c], now, next)
    {
      var l, i := lists[c], 0;
      ghost var s0 := Now();
      next := None;
      NoneClosed(s0, TimedOut(now));
      assert Expired(s0.trackers, [], now) == {};
      while i < |l|
        invariant 0 <= i <= |l| && Valid() && OnlyClosed(s0, Now(), Expired(s0.trackers, l[..i], now), TimedOut(now))
        invariant NextOk(s0.trackers, l[..i], now, next)
      {
        ghost var s := Now();
        NextOfList(s0, s, c, i, Expired(s0.trackers, l[..i], now));
        NextMore(s0.trackers, l, i, now, next);
        next := ScanOne(c, l[i], now, next);
        ScannedMore(s0, s, c, i, now);
        i := i + 1;
      }
      assert l[..i] == l;
    }

    /** The end of a dropped message's window in kdbus_cmd_recv, after its queue entry was freed. */
    method Drop(id: nat)
      requires Valid() && id in trackers
      modifies this`trackers, this`lists, this`counts, this`fates, this`notices, this`about
      ensures Valid() && Later(old(Now()), Now()) && id in old(trackers)
      ensures if Linked(old(Now()), id) then OnlyClosed(old(Now()), Now(), {id}, Died) else Now() == old(Now())
      ensures Linked(old(Now()), id) && !old(trackers)[id].sync ==>
        notices == old(notices) + [ReplyDead(old(trackers)[id].dst, old(trackers)[id].cookie)]
    {
      var t := trackers[id];
      if t.dst in lists && id in lists[t.dst] {
        OneClosed(Now(), id, Died);
        Close(id, if t.sync then None else Some(ReplyDead(t.dst, t.cookie)), Died);
      }
    }

    /** The end of kdbus_conn_wait_reply: for whatever reason, the caller no longer waits. */
    method EndWait(id: nat)
      requires Valid() && id in trackers && trackers[id].sync
      modifies this`trackers, this`lists, this`counts, this`fates, this`notices, this`about
      ensures Valid() && Later(old(Now()), Now()) && notices == old(notices)
      ensures if Linked(old(Now()), id) then OnlyClosed(old(Now()), Now(), {id}, WaitEnded) else Now() == old(Now())
    {
      var t := trackers[id];
      if t.dst in lists && id in lists[t.dst] {
        OneClosed(Now(), id, WaitEnded);
        Close(id, None, WaitEnded);
      }
    }

    /**
     The part of kdbus_conn_disconnect about replies; `entries` are the trackers of the messages
     still queued at the connection. Afterwards nobody waits for it, and everybody who did has
     been told or woken up.
     */
    method Disconnect(c: nat, entries: seq<nat>)
      requires Valid() && c in lists && NoDup(entries) && HeldByQueue(trackers, entries)
      modifies this`trackers, this`lists, this`counts, this`fates, this`notices, this`about, this`gone
      ensures Valid() && HeldByQueue(old(trackers), entries) && GoneWith(old(Now()), Now(), c, entries)
      ensures c !in lists && forall d, id :: d in old(lists) && d != c && id in old(lists)[d] ==>
        && d in lists && id in old(trackers) && var t := old(trackers)[id];
        && (id in lists[d] <==> t.src != c)
        && (t.src == c && !t.sync ==> ReplyDead(d, t.cookie) in notices[|old(notices)|..])
      ensures |notices| >= |old(notices)| + |entries| && forall k :: 0 <= k < |entries| ==>
        var t := old(trackers)[entries[k]];
        notices[|old(notices)| + k] == ReplyDead(t.dst, t.cookie)
    {
      ghost var s0 := Now();
      Retire(c, entries);
      GoneTells(s0, Now(), c, entries);
    }

    /** Its steps: the connection is marked, then the queue goes, then the windows. */
    method Retire(c: nat, entries: seq<nat>)
      requires Valid() && c in lists && NoDup(entries) && HeldByQueue(trackers, entries)
      modifies this`trackers, this`lists, this`counts, this`fates, this`notices, this`about, this`gone
      ensures Valid() && HeldByQueue(old(trackers), entries) && GoneWith(old(Now()), Now(), c, entries)
    {
      ghost var s0 := Now();
      LeavingSound(s0, c);
      gone := gone + {c};
      DropQueue(entries);
      Leave(c, entries, s0);
    }

    /** The second half: the windows, and the connection's place on the bus. */
    method Leave(c: nat, ghost entries: seq<nat>, ghost s0: Replies)
      requires Valid() && c in lists && HeldByQueue(s0.trackers, entries) && QueueDropped(Marked(s0, c), Now(), entries)
      modifies this`trackers, this`lists, this`counts, this`fates, this`notices, this`about
      ensures Valid() && GoneWith(s0, Now(), c, entries)
    {
      ghost var s1 := Now();
      CloseWindows(c);
      Disconnected(s0, s1, Now(), c, entries);
      lists := lists - {c};
    }

    /** All windows of the connection, and those that wait for it. */
    method CloseWindows(c: nat)
      requires Valid() && c in lists && c in gone
      modifies this`trackers, this`lists, this`counts, this`fates, this`notices, this`about
      ensures Valid() && Cleared(old(Now()), Now(), c) && c in lists && lists[c] == [] && Unawaited(Now(), c)
    {
      ghost var s1 := Now();
      CloseOwn(c);
      ghost var s2 := Now();
      CloseAwaiting(c);
      ClearedBy(s1, s2, Now(), c);
      LastWindows(s1, Now(), c);
    }

    /** Queued requests are answered with a death notice, wherever their window stands. */
    method DropQueue(entries: seq<nat>)
      requires Valid() && NoDup(entries) && HeldByQueue(trackers, entries)
      modifies this`trackers, this`counts, this`notices, this`about
      ensures Valid() && HeldByQueue(old(trackers), entries) && QueueDropped(old(Now()), Now(), entries)
    {
      var i := 0;
      ghost var s0 := Now();
      QueueStarts(s0, entries);
      while i < |entries|
        invariant 0 <= i <= |entries| && Valid() && QueueHalf(s0, Now(), entries, i)
      {
        NextQueued(s0, Now(), entries, i);
        DropOne(entries[i]);
        i := i + 1;
      }
      QueueEnds(s0, Now(), entries);
    }

    method DropOne(id: nat)
      requires Valid() && id in trackers && QueueEntry in trackers[id].held
      modifies this`trackers, this`counts, this`notices, this`about
      ensures Valid() && id in old(trackers)
      ensures Now() == Dropped(old(Now()), id)
    {
      var n := ReplyDead(trackers[id].dst, trackers[id].cookie);
      ToldSound(Now(), n, id);
      notices, about := notices + [n], about + [About(id, false)];
      Unref(id, QueueEntry);
    }

    /** The requests of the connection itself. */
    method CloseOwn(c: nat)
      requires Valid() && c in lists && c in gone
      modifies this`trackers, this`lists, this`counts, this`fates, this`notices, this`about
      ensures
        && Valid() && OnlyClosed(old(Now()), Now(), Elements(old(lists)[c]), RequesterGone) && c in lists
        && lists[c] == []
    {
      ghost var s0, ids := Now(), {};
      NoneClosed(s0, RequesterGone);
      while lists[c] != []
        invariant
          && Valid() && c in lists && c in gone && OnlyClosed(s0, Now(), ids, RequesterGone)
          && ids <= Elements(s0.lists[c])
        decreases |lists[c]|
      {
        var id := lists[c][0];
        OwnStep(s0, Now(), ids, c);
        InList(c, id);
        OneMoreClosed(s0, Now(), ids, id, RequesterGone);
        Close(id, None, RequesterGone);
        ids := ids + {id};
      }
      OwnDone(s0, Now(), ids, c);
    }

    /** The requests of others that wait for the connection. */
    method CloseAwaiting(c: nat)
      requires Valid() && c in lists && lists[c] == []
      modifies this`trackers, this`lists, this`counts, this`fates, this`notices, this`about
      ensures Valid() && OnlyClosed(old(Now()), Now(), Awaiting(old(Now()), old(lists).Keys - {c}, c), Died)
    {
      var todo := lists.Keys - {c};
      ghost var s0, done := Now(), {};
      NoneClosed(s0, Died);
      assert Awaiting(s0, {}, c) == {};
      while todo != {}
        invariant Valid() && OnlyClosed(s0, Now(), Awaiting(s0, done, c), Died)
        invariant todo <= s0.lists.Keys && done == s0.lists.Keys - {c} - todo
        decreases todo
      {
        var d :| d in todo;
        CloseNext(d, c, s0, done);
        todo, done := todo - {d}, done + {d};
      }
      assert done == s0.lists.Keys - {c};
    }

    method CloseNext(d: nat, c: nat, ghost s0: Replies, ghost done: set<nat>)
      requires Valid() && Sound(s0) && d in s0.lists && d !in done && OnlyClosed(s0, Now(), Awaiting(s0, done, c), Died)
      modifies this`trackers, this`lists, this`counts, this`fates, this`notices, this`about
      ensures Valid() && OnlyClosed(s0, Now(), Awaiting(s0, done + {d}, c), Died)
    {
      ghost var s := Now();
      AwaitingMore(s0, s, done, d, c);
      CloseFrom(d, c);
      ClosedMore(s0, s, Now(), Awaiting(s0, done, c), Awaiting(s, {d}, c), Died);
    }

    method CloseOne(id: nat, c: nat)
      requires Valid() && Linked(Now(), id)
      modifies this`trackers, this`lists, this`counts, this`fates, this`notices, this`about
      ensures Valid() && id in old(trackers)
      ensures Now() == if old(trackers)[id].src == c then Unlinked(old(Now()), id, Died) else old(Now())
    {
      var t := trackers[id];
      if t.src == c {
        Close(id, if t.sync then None else Some(ReplyDead(t.dst, t.cookie)), Died);
      }
    }

    method CloseFrom(d: nat, c: nat)
      requires Valid() && d in lists
      modifies this`trackers, this`lists, this`counts, this`fates, this`notices, this`about
      ensures Valid() && OnlyClosed(old(Now()), Now(), Awaiting(old(Now()), {d}, c), Died)
    {
      var l, i := lists[d], 0;
      ghost var s0 := Now();
      NoneClosed(s0, Died);
      assert From(s0.trackers, [], c) == {};
      while i < |l|
        invariant 0 <= i <= |l| && Valid() && OnlyClosed(s0, Now(), From(s0.trackers, l[..i], c), Died)
      {
        ghost var s := Now();
        NextOfList(s0, s, d, i, From(s0.trackers, l[..i], c));
        CloseOne(l[i], c);
        FromMore(s0, s, d, i, c);
        i := i + 1;
      }
      assert l[..i] == l;
      FromIsAwaiting(s0, d, c);
    }

    /**
     The tracker part of kdbus_conn_move_messages: open windows of other connections that wait for
     `from`, and match the name, wait for `heir` from now on. Nothing else changes.
     */
    method Retarget(heir: nat, from: nat, nameId: nat)
      requires Valid() && heir in lists && heir != from
      modifies this`trackers
      ensures Valid() && Later(old(Now()), Now())
      ensures Redirected(old(Now()), Now(), Windows(old(Now()), old(lists).Keys - {from, heir}), heir, from, nameId)
      ensures forall c, id :: c in lists && id in lists[c] ==>
        && id in old(trackers) && id in trackers && var t := old(trackers)[id];
        && trackers[id] == t.(src := trackers[id].src)
        && trackers[id].src ==
           if c != from && c != heir && t.src == from && (nameId == 0 || t.nameId == nameId) then heir else t.src
      ensures forall id :: id in old(trackers) ==> id in trackers && trackers[id].cookie == old(trackers)[id].cookie
    {
      var todo := lists.Keys - {from, heir};
      ghost var s0, done := Now(), {};
      assert Windows(s0, {}) == {};
      while todo != {}
        invariant Valid() && todo <= s0.lists.Keys && done == s0.lists.Keys - {from, heir} - todo
        invariant Redirected(s0, Now(), Windows(s0, done), heir, from, nameId)
        decreases todo
      {
        var c :| c in todo;
        RetargetNext(c, heir, from, nameId, s0, done);
        todo, done := todo - {c}, done + {c};
      }
      assert done == s0.lists.Keys - {from, heir};
      HeirExpected(s0, Now(), heir, from, nameId);
    }

    method RetargetNext(c: nat, heir: nat, from: nat, nameId: nat, ghost s0: Replies, ghost done: set<nat>)
      requires Valid() && Sound(s0) && c in lists && heir in lists && heir != from
      requires Redirected(s0, Now(), Windows(s0, done), heir, from, nameId)
      modifies this`trackers
      ensures Valid() && Redirected(s0, Now(), Windows(s0, done + {c}), heir, from, nameId)
    {
      WindowsMore(s0, done, c);
      RetargetList(c, heir, from, nameId, s0, Windows(s0, done));
    }

    method RetargetList(c: nat, heir: nat, from: nat, nameId: nat, ghost s0: Replies, ghost done: set<nat>)
      requires Valid() && c in lists && heir in lists && heir != from && Redirected(s0, Now(), done, heir, from, nameId)
      modifies this`trackers
      ensures Valid() && Redirected(s0, Now(), done + Elements(lists[c]), heir, from, nameId)
    {
      var l, i := lists[c], 0;
      ghost var now := done;
      while i < |l|
        invariant 0 <= i <= |l| && Valid() && Redirected(s0, Now(), now, heir, from, nameId)
        invariant now == done + Elements(l[..i])
      {
        InList(c, l[i]);
        RedirectedMore(s0, Now(), now, l[i], heir, from, nameId);
        RetargetOne(l[i], heir, from, nameId);
        ElementsMore(l, i);
        now := now + {l[i]};
        i := i + 1;
      }
      assert l[..i] == l;
    }

    method RetargetOne(id: nat, heir: nat, from: nat, nameId: nat)
      requires Valid() && Linked(Now(), id) && heir in lists
      modifies this`trackers
      ensures
        && Valid() && id in old(trackers)
        && Now() == Changed(old(Now()), id, Redirect(old(trackers)[id], heir, from, nameId))
    {
      InList(trackers[id].dst, id);
      var t := trackers[id];
      assert trackers[id := t] == trackers;
      if t.src == from && (nameId == 0 || t.nameId == nameId) {
        ChangedSound(Now(), id, t.(src := heir));
        trackers := trackers[id := t.(src := heir)];
      }
    }
  }

  // ---------------------------------------------------------------- finding a window

  /** The window waits for a reply with that cookie, from that connection if one is given. */
  ghost predicate Expects(s: Replies, id: nat, replier: Option<nat>, cookie: nat) {
    id in s.trackers && (replier.Some? ==> s.trackers[id].src == replier.value) && s.trackers[id].cookie == cookie
  }

  ghost predicate FirstMatch(s: Replies, l: seq<nat>, id: nat, replier: Option<nat>, cookie: nat) {
    && Expects(s, id, replier, cookie)
    && exists k :: 0 <= k < |l| && l[k] == id && forall j :: 0 <= j < k ==> !Expects(s, l[j], replier, cookie)
  }

  lemma {:induction false} ReplyCloses(s: Replies, id: nat, replier: nat, dst: nat, cookie: nat)
    requires Sound(s) && dst in s.lists && FirstMatch(s, s.lists[dst], id, Some(replier), cookie)
    ensures id in s.lists[dst] && id in s.trackers && s.trackers[id].src == replier && s.trackers[id].cookie == cookie
    ensures var s' := Unlinked(s, id, Answered(replier));
      && dst in s'.lists && id !in s'.lists[dst] && s'.log.notices == s.log.notices
      && s'.log.passed == s.log.passed + [Pass(id, replier, dst, cookie)]
  {
    assert ListOk(s, dst) && EntryOk(s, dst, id);
    FilteredOne(s.lists[dst], id);
    FilteredIn(s.lists[dst], {id}, id);
  }

  /** The caller refers to the window again, and no longer counts as interrupted. */
  ghost predicate Resumed(s: Replies, s': Replies, id: nat) {
    && id in s.trackers && s.trackers[id].interrupted
    && s' == Changed(s, id, s.trackers[id].(interrupted := false, held := s.trackers[id].held + multiset{Caller}))
  }

  // ---------------------------------------------------------------- expired windows

  /** The scan leaves blocking calls to their callers. */
  ghost predicate Timed(t: Tracker) {
    !(t.sync && !t.interrupted)
  }

  ghost predicate Stays(t: Tracker, now: nat) {
    !Timed(t) || t.deadline > now
  }

  ghost function Expired(trackers: map<nat, Tracker>, l: seq<nat>, now: nat): set<nat> {
    set id | id in l && id in trackers && !Stays(trackers[id], now)
  }

  /** The windows of the list that wait for c. */
  ghost function From(trackers: map<nat, Tracker>, l: seq<nat>, c: nat): set<nat> {
    set id | id in l && id in trackers && trackers[id].src == c
  }

  /** A walk through a list that closes some of the windows it has passed finds the next one open. */
  lemma {:induction false} NextOfList(s0: Replies, s: Replies, c: nat, i: int, ids: set<nat>)
    requires Sound(s0) && c in s0.lists && 0 <= i < |s0.lists[c]| && OnlyDetached(s0, s, ids)
    requires forall id :: id in ids ==> id in s0.lists[c][..i]
    ensures var id := s0.lists[c][i];
      c in s.lists && id in s.lists[c] && Linked(s, id) && id in s0.trackers && s.trackers[id] == s0.trackers[id]
  {
    var id := s0.lists[c][i];
    assert ListOk(s0, c) && id in s0.lists[c];
    forall k | 0 <= k < i ensures s0.lists[c][..i][k] != id {
      assert s0.lists[c][..i][k] == s0.lists[c][k];
    }
    NotYetClosed(s0, s, ids, c, id);
  }

  lemma {:induction false} ScannedMore(s0: Replies, s: Replies, c: nat, i: int, now: nat)
    requires Sound(s0) && Sound(s) && c in s0.lists && 0 <= i < |s0.lists[c]|
    requires OnlyClosed(s0, s, Expired(s0.trackers, s0.lists[c][..i], now), TimedOut(now))
    ensures var id := s0.lists[c][i];
      && id in s.trackers
      && OnlyClosed(s0, if Stays(s.trackers[id], now) then s else Unlinked(s, id, TimedOut(now)),
                    Expired(s0.trackers, s0.lists[c][..i + 1], now), TimedOut(now))
  {
    var l := s0.lists[c];
    var ids := Expired(s0.trackers, l[..i], now);
    NextOfList(s0, s, c, i, ids);
    assert l[..i + 1] == l[..i] + [l[i]];
    assert Expired(s0.trackers, l[..i + 1], now) == if Stays(s0.trackers[l[i]], now) then ids else ids + {l[i]};
    if !Stays(s0.trackers[l[i]], now) {
      OneMoreClosed(s0, s, ids, l[i], TimedOut(now));
    }
  }

  lemma {:induction false} FromMore(s0: Replies, s: Replies, d: nat, i: int, c: nat)
    requires Sound(s0) && Sound(s) && d in s0.lists && 0 <= i < |s0.lists[d]|
    requires OnlyClosed(s0, s, From(s0.trackers, s0.lists[d][..i], c), Died)
    ensures var id := s0.lists[d][i];
      && id in s.trackers
      && OnlyClosed(s0, if s.trackers[id].src == c then Unlinked(s, id, Died) else s,
                    From(s0.trackers, s0.lists[d][..i + 1], c), Died)
  {
    var l := s0.lists[d];
    var ids := From(s0.trackers, l[..i], c);
    NextOfList(s0, s, d, i, ids);
    assert l[..i + 1] == l[..i] + [l[i]];
    assert From(s0.trackers, l[..i + 1], c) == if s0.trackers[l[i]].src == c then ids + {l[i]} else ids;
    if s0.trackers[l[i]].src == c {
      OneMoreClosed(s0, s, ids, l[i], Died);
    }
  }

  /** The deadline to wake up for after one more tracker. */
  function Earlier(t: Tracker, now: nat, next: Option<nat>): Option<nat> {
    if !(t.sync && !t.interrupted) && t.deadline > now && (next.None? || next.value > t.deadline)
    then Some(t.deadline)
    else next
  }

  lemma {:induction false} NextMore(trackers: map<nat, Tracker>, l: seq<nat>, i: int, now: nat, next: Option<nat>)
    requires 0 <= i < |l| && l[i] in trackers && NextOk(trackers, l[..i], now, next)
    ensures NextOk(trackers, l[..i + 1], now, Earlier(trackers[l[i]], now, next))
  {
    assert l[..i + 1] == l[..i] + [l[i]];
    var next' := Earlier(trackers[l[i]], now, next);
    if next'.Some? && next' == next {
      var id :|
        && id in l[..i] && id in trackers && Timed(trackers[id])
        && trackers[id].deadline > now && trackers[id].deadline == next.value;
      assert id in l[..i + 1];
    } else if next'.Some? {
      assert l[i] in l[..i + 1];
    }
  }

  /** The earliest of the deadlines still ahead, if there is one. */
  ghost predicate NextOk(trackers: map<nat, Tracker>, l: seq<nat>, now: nat, next: Option<nat>) {
    && (forall id :: id in l && id in trackers && Timed(trackers[id]) && trackers[id].deadline > now ==>
          next.Some? && next.value <= trackers[id].deadline)
    && (next.Some? ==>
          exists id ::
            && id in l && id in trackers && Timed(trackers[id])
            && trackers[id].deadline > now && trackers[id].deadline == next.value)
  }

  /** A scan at time `now` leaves exactly the windows of blocked callers and those whose time is yet to come. */
  lemma {:induction false} ScanLeaves(s0: Replies, s: Replies, c: nat, now: nat)
    requires Sound(s0) && c in s0.lists
    requires OnlyClosed(s0, s, Expired(s0.trackers, s0.lists[c], now), TimedOut(now))
    ensures c in s.lists
    ensures forall id :: id in s0.lists[c] ==> id in s0.trackers
    ensures forall id :: id in s.lists[c] <==>
      && id in s0.lists[c]
      && ((s0.trackers[id].sync && !s0.trackers[id].interrupted) || s0.trackers[id].deadline > now)
    ensures forall id :: id in s.lists[c] ==> id in s.trackers && s.trackers[id] == s0.trackers[id]
  {
    var ids := Expired(s0.trackers, s0.lists[c], now);
    assert ListOk(s0, c);
    forall id | id in s0.lists[c] ensures id in s0.trackers {
      assert EntryOk(s0, c, id);
    }
    forall id ensures id in s.lists[c] <==> id in s0.lists[c] && id !in ids {
      FilteredIn(s0.lists[c], ids, id);
    }
  }

  /** Every request nobody blocks on gets its timeout notice. */
  lemma {:induction false} ScanTells(s0: Replies, s: Replies, c: nat, now: nat)
    requires Sound(s0) && c in s0.lists
    requires OnlyClosed(s0, s, Expired(s0.trackers, s0.lists[c], now), TimedOut(now))
    ensures |s0.log.notices| <= |s.log.notices|
    ensures forall id ::
      id in s0.lists[c] && id in s0.trackers && !s0.trackers[id].sync && s0.trackers[id].deadline <= now ==>
        ReplyTimeout(c, s0.trackers[id].cookie) in s.log.notices[|s0.log.notices|..]
  {
    assert ListOk(s0, c);
    forall id |
      id in s0.lists[c] && id in s0.trackers && !s0.trackers[id].sync && s0.trackers[id].deadline <= now
      ensures ReplyTimeout(c, s0.trackers[id].cookie) in s.log.notices[|s0.log.notices|..]
    {
      assert EntryOk(s0, c, id) && id in Expired(s0.trackers, s0.lists[c], now);
      assert EndedAs(s0, s, id, TimedOut(now));
      assert s.log.notices[s.fates[id].at] in s.log.notices[|s0.log.notices|..];
    }
  }

  /** A further scan is due exactly if there is a window left for it, at the first of their deadlines. */
  lemma {:induction false} ScanWakes(s0: Replies, s: Replies, c: nat, now: nat, next: Option<nat>)
    requires Sound(s0) && c in s0.lists && NextOk(s0.trackers, s0.lists[c], now, next)
    requires OnlyClosed(s0, s, Expired(s0.trackers, s0.lists[c], now), TimedOut(now))
    ensures c in s.lists && forall id :: id in s.lists[c] ==> id in s.trackers
    ensures next.Some? <==> exists id :: id in s.lists[c] && (!s.trackers[id].sync || s.trackers[id].interrupted)
    ensures next.Some? ==>
      && next.value > now
      && (exists id ::
            && id in s.lists[c] && (!s.trackers[id].sync || s.trackers[id].interrupted)
            && s.trackers[id].deadline == next.value)
      && forall id ::
           id in s.lists[c] && (!s.trackers[id].sync || s.trackers[id].interrupted) ==>
             next.value <= s.trackers[id].deadline
  {
    ScanLeaves(s0, s, c, now);
    if next.Some? {
      var id :|
        && id in s0.lists[c] && id in s0.trackers && Timed(s0.trackers[id])
        && s0.trackers[id].deadline > now && s0.trackers[id].deadline == next.value;
      assert id in s.lists[c];
    }
  }

  // ---------------------------------------------------------------- a connection leaves

  ghost function Elements(l: seq<nat>): set<nat> {
    set id | id in l
  }

  lemma {:induction false} ElementsMore(l: seq<nat>, i: int)
    requires 0 <= i < |l|
    ensures Elements(l[..i + 1]) == Elements(l[..i]) + {l[i]}
  {
    assert l[..i + 1] == l[..i] + [l[i]];
  }

  /** The open windows of the given connections. */
  ghost function Windows(s: Replies, conns: set<nat>): set<nat> {
    set id | id in s.trackers && s.trackers[id].dst in conns && Linked(s, id)
  }

  /** Those of them that wait for c. */
  ghost function Awaiting(s: Replies, conns: set<nat>, c: nat): set<nat> {
    set id | id in s.trackers && s.trackers[id].dst in conns && Linked(s, id) && s.trackers[id].src == c
  }

  ghost predicate HeldByQueue(trackers: map<nat, Tracker>, entries: seq<nat>) {
    forall id :: id in entries ==> id in trackers && QueueEntry in trackers[id].held
  }

  /** The death notices for the given requests. */
  ghost function Deaths(trackers: map<nat, Tracker>, entries: seq<nat>): seq<Notice>
    requires forall id :: id in entries ==> id in trackers
  {
    seq(|entries|, k requires 0 <= k < |entries| => ReplyDead(trackers[entries[k]].dst, trackers[entries[k]].cookie))
  }

  /** The entries still to come are held, and about what they were. */
  ghost predicate Awaited(trackers0: map<nat, Tracker>, trackers: map<nat, Tracker>, entries: seq<nat>) {
    && HeldByQueue(trackers, entries)
    && forall id :: id in entries ==> id in trackers0 && Bare(trackers0[id]) == Bare(trackers[id])
  }

  /** References were dropped and notices queued: the windows are the same. */
  ghost predicate OnlyReleased(s0: Replies, s: Replies) {
    (&& s.lists == s0.lists && s.known == s0.known && s.fates == s0.fates
     && s.log.gone == s0.log.gone && s.log.passed == s0.log.passed
     && (forall id :: Linked(s0, id) ==> id in s.trackers && Bare(s.trackers[id]) == Bare(s0.trackers[id]))
     && (forall id :: id in s.trackers ==> id in s0.trackers && Bare(s.trackers[id]) == Bare(s0.trackers[id]))) == true
  }

  /** One death notice for each of the requests, in their order. */
  ghost predicate QueueDropped(s0: Replies, s: Replies, entries: seq<nat>)
    requires HeldByQueue(s0.trackers, entries)
  {
    (OnlyReleased(s0, s) && Later(s0, s) && s.log.notices == s0.log.notices + Deaths(s0.trackers, entries)) == true
  }

  /** The request is answered with a death notice, and its entry refers to it no longer. */
  ghost function Dropped(s: Replies, id: nat): Replies
    requires id in s.trackers
  {
    Unheld(Told(s, ReplyDead(s.trackers[id].dst, s.trackers[id].cookie), id), id, QueueEntry)
  }

  lemma {:induction false} FreedReleases(s: Replies, id: nat)
    requires id in s.trackers && !Linked(s, id)
    ensures OnlyReleased(s, Freed(s, id))
  {
  }

  lemma {:induction false} ChangedReleases(s: Replies, id: nat, t: Tracker)
    requires id in s.trackers && Bare(t) == Bare(s.trackers[id])
    ensures OnlyReleased(s, Changed(s, id, t)) && (Linked(Changed(s, id, t), id) <==> Linked(s, id))
  {
    assert t.dst == Bare(t).dst && Bare(s.trackers[id]).dst == s.trackers[id].dst;
  }

  lemma {:induction false} UnheldReleases(s: Replies, id: nat, h: Holder)
    requires id in s.trackers
    ensures OnlyReleased(s, Unheld(s, id, h)) && Unheld(s, id, h).log == s.log
  {
    if s.trackers[id].held == multiset{h} && !Linked(s, id) {
      FreedReleases(s, id);
    } else {
      ChangedReleases(s, id, s.trackers[id].(held := s.trackers[id].held - multiset{h}));
    }
  }

  lemma {:induction false} ReleasedLater(s: Replies, s': Replies)
    requires OnlyReleased(s, s') && s.log.notices <= s'.log.notices && s.log.about <= s'.log.about
    ensures Later(s, s')
  {
  }

  /** All that a holder has to know to drop its reference. */
  lemma {:induction false} MayRelease(s: Replies, id: nat, h: Holder)
    requires Sound(s) && id in s.trackers
    ensures Sound(Unheld(s, id, h)) && Later(s, Unheld(s, id, h))
  {
    UnheldSound(s, id, h);
    UnheldReleases(s, id, h);
    ReleasedLater(s, Unheld(s, id, h));
  }

  lemma {:induction false} DroppedReleases(s: Replies, id: nat)
    requires id in s.trackers
    ensures OnlyReleased(s, Dropped(s, id)) && Later(s, Dropped(s, id))
    ensures Dropped(s, id).log.notices == s.log.notices + [ReplyDead(s.trackers[id].dst, s.trackers[id].cookie)]
  {
    var s' := Told(s, ReplyDead(s.trackers[id].dst, s.trackers[id].cookie), id);
    UnheldReleases(s', id, QueueEntry);
    assert OnlyReleased(s, s');
    ReleasedTwice(s, s', Dropped(s, id));
    ReleasedLater(s, Dropped(s, id));
  }

  lemma {:induction false} ReleasedTwice(s0: Replies, s: Replies, s': Replies)
    requires OnlyReleased(s0, s) && OnlyReleased(s, s')
    ensures OnlyReleased(s0, s')
  {
    forall id | Linked(s0, id) ensures id in s'.trackers && Bare(s'.trackers[id]) == Bare(s0.trackers[id]) {
      Alike(s0, s, id);
    }
  }

  lemma {:induction false} DeathsMore(trackers: map<nat, Tracker>, entries: seq<nat>, i: int)
    requires HeldByQueue(trackers, entries) && 0 <= i < |entries|
    ensures Deaths(trackers, entries[..i + 1]) ==
      Deaths(trackers, entries[..i]) + [ReplyDead(trackers[entries[i]].dst, trackers[entries[i]].cookie)]
  {
  }

  lemma {:induction false} QueueStep(s0: Replies, s: Replies, entries: seq<nat>, i: int)
    requires 0 <= i < |entries| && HeldByQueue(s0.trackers, entries) && QueueDropped(s0, s, entries[..i])
    requires entries[i] in s.trackers
    ensures HeldByQueue(s0.trackers, entries[..i + 1]) && QueueDropped(s0, Dropped(s, entries[i]), entries[..i + 1])
  {
    var id := entries[i];
    DroppedReleases(s, id);
    ReleasedTwice(s0, s, Dropped(s, id));
    LaterTransitive(s0, s, Dropped(s, id));
    DeathsMore(s0.trackers, entries, i);
    assert
      && Bare(s.trackers[id]).dst == Bare(s0.trackers[id]).dst
      && Bare(s.trackers[id]).cookie == Bare(s0.trackers[id]).cookie;
  }

  lemma {:induction false} DroppedOthers(s: Replies, id: nat)
    requires id in s.trackers
    ensures forall j ::
      j in s.trackers && j != id ==> j in Dropped(s, id).trackers && Dropped(s, id).trackers[j] == s.trackers[j]
  {
  }

  lemma {:induction false} Remaining(entries: seq<nat>, i: int)
    requires NoDup(entries) && 0 <= i < |entries|
    ensures entries[i] in entries[i..] && forall j :: j in entries[i + 1..] ==> j in entries[i..] && j != entries[i]
  {
    assert entries[i..] == [entries[i]] + entries[i + 1..];
  }

  lemma {:induction false} QueueAwaits(s0: Replies, s: Replies, entries: seq<nat>, i: int)
    requires NoDup(entries) && 0 <= i < |entries| && Awaited(s0.trackers, s.trackers, entries[i..])
    ensures entries[i] in s.trackers && QueueEntry in s.trackers[entries[i]].held
    ensures Awaited(s0.trackers, Dropped(s, entries[i]).trackers, entries[i + 1..])
  {
    Remaining(entries, i);
    DroppedOthers(s, entries[i]);
  }

  lemma {:induction false} Alike(s0: Replies, s: Replies, id: nat)
    requires OnlyReleased(s0, s) && id in s.trackers
    ensures Linked(s0, id) <==> Linked(s, id)
  {
    assert Bare(s.trackers[id]).dst == Bare(s0.trackers[id]).dst;
  }

  lemma {:induction false} OwnStep(s0: Replies, s: Replies, ids: set<nat>, c: nat)
    requires OnlyClosed(s0, s, ids, RequesterGone) && Sound(s) && c in s.lists && s.lists[c] != []
    ensures s.lists[c][0] in Elements(s0.lists[c])
    ensures |Minus(s.lists[c], s.lists[c][0])| < |s.lists[c]|
  {
    var id := s.lists[c][0];
    FilteredIn(s0.lists[c], ids, id);
    assert ListOk(s, c);
    MinusMembers(s.lists[c], id);
  }

  lemma {:induction false} OwnDone(s0: Replies, s: Replies, ids: set<nat>, c: nat)
    requires OnlyClosed(s0, s, ids, RequesterGone) && c in s.lists && s.lists[c] == [] && ids <= Elements(s0.lists[c])
    ensures ids == Elements(s0.lists[c])
  {
    forall id | id in s0.lists[c] ensures id in ids {
      FilteredIn(s0.lists[c], ids, id);
    }
  }

  lemma {:induction false} FromIsAwaiting(s: Replies, d: nat, c: nat)
    requires Sound(s) && d in s.lists
    ensures From(s.trackers, s.lists[d], c) == Awaiting(s, {d}, c)
  {
    assert ListOk(s, d);
    forall id | id in s.lists[d] ensures Linked(s, id) && s.trackers[id].dst == d {
      assert EntryOk(s, d, id);
    }
  }

  lemma {:induction false} AwaitingMore(s0: Replies, s: Replies, done: set<nat>, d: nat, c: nat)
    requires Sound(s0) && OnlyClosed(s0, s, Awaiting(s0, done, c), Died) && d in s0.lists && d !in done
    ensures Awaiting(s0, done + {d}, c) == Awaiting(s0, done, c) + Awaiting(s, {d}, c)
  {
    StillOpen(s0, s, Awaiting(s0, done, c));
  }

  /** The windows that end when c leaves. */
  ghost function Ending(s: Replies, c: nat): set<nat> {
    set id | id in s.trackers && Linked(s, id) && (s.trackers[id].src == c || s.trackers[id].dst == c)
  }

  /**
   The connection left: its own windows ended with it, and those that waited for it with a death
   notice or by waking up who blocks. All other windows are as they were.
   */
  ghost predicate Gone(s0: Replies, s: Replies, c: nat) {
    (&& c in s.log.gone && s.log.passed == s0.log.passed && s.known == s0.known
     && s.lists.Keys == s0.lists.Keys - {c}
     && (forall d :: d in s.lists ==> s.lists[d] == Filtered(s0.lists[d], Ending(s0, c)))
     && (forall id :: Linked(s, id) <==> Linked(s0, id) && id !in Ending(s0, c))
     && (forall id :: Linked(s, id) ==> Bare(s.trackers[id]) == Bare(s0.trackers[id]))
     && (forall id :: id in Ending(s0, c) ==> EndedAs(s0, s, id, HowWith(s0, id, c)))
     && (forall id :: id in s.fates && id !in Ending(s0, c) ==> id in s0.fates)) == true
  }

  /** The first i requests were dropped, and the others are as they were. */
  ghost predicate QueueHalf(s0: Replies, s: Replies, entries: seq<nat>, i: int)
    requires HeldByQueue(s0.trackers, entries) && 0 <= i <= |entries|
  {
    (Awaited(s0.trackers, s.trackers, entries[i..]) && QueueDropped(s0, s, entries[..i])) == true
  }

  lemma {:induction false} QueueStarts(s: Replies, entries: seq<nat>)
    requires HeldByQueue(s.trackers, entries)
    ensures QueueHalf(s, s, entries, 0)
  {
    assert entries[..0] == [] && entries[0..] == entries;
    assert s.log.notices + Deaths(s.trackers, []) == s.log.notices;
  }

  lemma {:induction false} QueueEnds(s0: Replies, s: Replies, entries: seq<nat>)
    requires HeldByQueue(s0.trackers, entries) && QueueHalf(s0, s, entries, |entries|)
    ensures QueueDropped(s0, s, entries)
  {
    assert entries[..|entries|] == entries;
  }

  lemma {:induction false} NextQueued(s0: Replies, s: Replies, entries: seq<nat>, i: int)
    requires NoDup(entries) && 0 <= i < |entries| && HeldByQueue(s0.trackers, entries) && QueueHalf(s0, s, entries, i)
    ensures entries[i] in s.trackers && QueueEntry in s.trackers[entries[i]].held
    ensures QueueHalf(s0, Dropped(s, entries[i]), entries, i + 1)
  {
    QueueAwaits(s0, s, entries, i);
    QueueStep(s0, s, entries, i);
  }

  /** The stages of a disconnect: references of queued messages dropped, own windows closed, those of others closed. */
  ghost predicate Leaving(s1: Replies, s2: Replies, s3: Replies, c: nat) {
    (&& Sound(s1) && Sound(s2) && Sound(s3) && c in s1.lists
     && OnlyClosed(s1, s2, Elements(s1.lists[c]), RequesterGone) && s2.lists[c] == []
     && OnlyClosed(s2, s3, Awaiting(s2, s2.lists.Keys - {c}, c), Died)) == true
  }

  lemma {:induction false} OwnWindows(s: Replies, c: nat)
    requires Sound(s) && c in s.lists
    ensures Elements(s.lists[c]) == Windows(s, {c})
  {
    assert ListOk(s, c);
    forall id | id in s.lists[c] ensures Linked(s, id) && s.trackers[id].dst == c {
      assert EntryOk(s, c, id);
    }
  }

  lemma {:induction false} EndingParts(s1: Replies, s2: Replies, c: nat)
    requires Sound(s1) && c in s1.lists && OnlyDetached(s1, s2, Elements(s1.lists[c]))
    ensures Ending(s1, c) == Elements(s1.lists[c]) + Awaiting(s2, s2.lists.Keys - {c}, c)
  {
    StillOpen(s1, s2, Elements(s1.lists[c]));
    OwnWindows(s1, c);
  }

  lemma {:induction false} EndingStages(s1: Replies, s2: Replies, s3: Replies, c: nat)
    requires Leaving(s1, s2, s3, c)
    ensures Ending(s1, c) == Elements(s1.lists[c]) + Awaiting(s2, s2.lists.Keys - {c}, c)
    ensures OnlyDetached(s1, s3, Ending(s1, c))
  {
    EndingParts(s1, s2, c);
    DetachedMore(s1, s2, s3, Elements(s1.lists[c]), Awaiting(s2, s2.lists.Keys - {c}, c));
  }

  /** The windows that end with c were closed, and no others. */
  ghost predicate Cleared(s1: Replies, s: Replies, c: nat) {
    (&& OnlyDetached(s1, s, Ending(s1, c)) && Later(s1, s)
     && s.known == s1.known && s.log.gone == s1.log.gone && s.log.passed == s1.log.passed
     && (forall id :: id in Ending(s1, c) ==> EndedAs(s1, s, id, HowWith(s1, id, c)))
     && (forall id :: id in s.fates && id !in Ending(s1, c) ==> id in s1.fates)) == true
  }

  ghost function HowWith(s: Replies, id: nat, c: nat): How {
    if id in s.trackers && s.trackers[id].dst == c then RequesterGone else Died
  }

  lemma {:induction false} ClearedBy(s1: Replies, s2: Replies, s3: Replies, c: nat)
    requires Leaving(s1, s2, s3, c)
    ensures Cleared(s1, s3, c)
  {
    EndingStages(s1, s2, s3, c);
    LaterTransitive(s1, s2, s3);
    forall id
      ensures id in Ending(s1, c) ==> EndedAs(s1, s3, id, HowWith(s1, id, c))
      ensures id in s3.fates && id !in Ending(s1, c) ==> id in s1.fates
    {
      EndingFates(s1, s2, s3, c, id);
    }
  }

  lemma {:induction false} LastWindows(s1: Replies, s: Replies, c: nat)
    requires Sound(s1) && Sound(s) && Cleared(s1, s, c) && c in s1.lists
    ensures c in s.lists && s.lists[c] == [] && Unawaited(s, c)
  {
    StillOpen(s1, s, Ending(s1, c));
    assert s.lists[c] != [] ==> s.lists[c][0] in s.lists[c];
    forall d, id | d in s.lists && id in s.lists[d] ensures d != c && (id in s.trackers ==> s.trackers[id].src != c) {
      assert ListOk(s, d) && EntryOk(s, d, id);
      assert Linked(s, id);
    }
  }

  lemma {:induction false} EndingFates(s1: Replies, s2: Replies, s3: Replies, c: nat, id: nat)
    requires Leaving(s1, s2, s3, c)
    ensures id in Ending(s1, c) ==> EndedAs(s1, s3, id, HowWith(s1, id, c))
    ensures id in s3.fates && id !in Ending(s1, c) ==> id in s1.fates
  {
    EndingStages(s1, s2, s3, c);
    if id in Elements(s1.lists[c]) {
      assert ListOk(s1, c) && EntryOk(s1, c, id);
      assert EndedAs(s1, s2, id, RequesterGone);
      EndedLater(s1, s2, s3, id, RequesterGone);
    } else if id in Awaiting(s2, s2.lists.Keys - {c}, c) {
      assert EndedAs(s2, s3, id, Died);
      EndedEarlier(s1, s2, s3, id, Died);
    }
  }

  lemma {:induction false} EndingSame(s0: Replies, s1: Replies, c: nat)
    requires OnlyReleased(s0, s1)
    ensures Ending(s0, c) == Ending(s1, c)
  {
    forall id | id in s1.trackers ensures id in Ending(s0, c) <==> id in Ending(s1, c) {
      Alike(s0, s1, id);
      assert Bare(s1.trackers[id]).src == Bare(s0.trackers[id]).src;
    }
  }

  lemma {:induction false} GoneOpen(s0: Replies, s1: Replies, s2: Replies, c: nat, id: nat)
    requires
      && Sound(s1) && OnlyReleased(s0, s1) && OnlyDetached(s1, s2, Ending(s1, c)) && c in s2.lists && s2.lists[c] == []
    ensures Linked(Departed(s2, c), id) <==> Linked(s0, id) && id !in Ending(s1, c)
    ensures Linked(Departed(s2, c), id) ==> Bare(s2.trackers[id]) == Bare(s0.trackers[id])
  {
    StillOpen(s1, s2, Ending(s1, c));
    assert Linked(Departed(s2, c), id) <==> Linked(s2, id);
    if id in s1.trackers {
      Alike(s0, s1, id);
    }
  }

  lemma {:induction false} GoneFate(s0: Replies, s1: Replies, s2: Replies, c: nat, id: nat)
    requires OnlyReleased(s0, s1) && Later(s0, s1) && Cleared(s1, s2, c) && id in Ending(s1, c)
    ensures EndedAs(s0, Departed(s2, c), id, HowWith(s0, id, c))
  {
    assert EndedAs(s1, s2, id, HowWith(s1, id, c));
    assert Bare(s0.trackers[id]) == Bare(s1.trackers[id]);
    assert Bare(s0.trackers[id]).dst == Bare(s1.trackers[id]).dst;
    EndedEarlier(s0, s1, s2, id, HowWith(s1, id, c));
  }

  lemma {:induction false} GoneThen(s0: Replies, s1: Replies, s2: Replies, c: nat)
    requires Sound(s1) && OnlyReleased(s0, s1) && Later(s0, s1) && c in s0.log.gone
    requires Cleared(s1, s2, c) && c in s2.lists && s2.lists[c] == []
    ensures Gone(s0, Departed(s2, c), c) && Later(s0, Departed(s2, c))
  {
    var s := Departed(s2, c);
    LaterTransitive(s0, s1, s);
    EndingSame(s0, s1, c);
    forall id
      ensures Linked(s, id) <==> Linked(s0, id) && id !in Ending(s0, c)
      ensures Linked(s, id) ==> Bare(s.trackers[id]) == Bare(s0.trackers[id])
    {
      GoneOpen(s0, s1, s2, c, id);
    }
    forall id | id in Ending(s0, c) ensures EndedAs(s0, s, id, HowWith(s0, id, c)) {
      GoneFate(s0, s1, s2, c, id);
    }
  }

  /** Marking the connection as disconnected comes first. */
  lemma {:induction false} GoneSince(s0: Replies, s: Replies, c: nat)
    requires Gone(Marked(s0, c), s, c) && Later(Marked(s0, c), s)
    ensures Gone(s0, s, c) && Later(s0, s)
  {
    var s1 := Marked(s0, c);
    assert Ending(s0, c) == Ending(s1, c);
    forall id | id in Ending(s0, c) ensures EndedAs(s0, s, id, HowWith(s0, id, c)) {
      EndedEarlier(s0, s1, s, id, HowWith(s1, id, c));
    }
  }

  /** Before that, the requests still queued at the connection got a death notice each. */
  ghost predicate GoneWith(s0: Replies, s: Replies, c: nat, entries: seq<nat>)
    requires HeldByQueue(s0.trackers, entries)
  {
    (&& Gone(s0, s, c) && Later(s0, s)
     && s0.log.notices + Deaths(s0.trackers, entries) <= s.log.notices) == true
  }

  /**
   The windows of others stay open unless they waited for the connection, in which case those who do not block
   are told; so are the senders of the requests still queued.
   */
  lemma {:induction false} GoneTells(s0: Replies, s: Replies, c: nat, entries: seq<nat>)
    requires Sound(s0) && HeldByQueue(s0.trackers, entries) && GoneWith(s0, s, c, entries)
    ensures |s0.log.notices| + |entries| <= |s.log.notices|
    ensures c !in s.lists && forall d, id :: d in s0.lists && d != c && id in s0.lists[d] ==>
      && d in s.lists && id in s0.trackers && var t := s0.trackers[id];
      && (id in s.lists[d] <==> t.src != c)
      && (t.src == c && !t.sync ==> ReplyDead(d, t.cookie) in s.log.notices[|s0.log.notices|..])
    ensures forall k :: 0 <= k < |entries| ==>
      && entries[k] in s0.trackers && var t := s0.trackers[entries[k]];
      s.log.notices[|s0.log.notices| + k] == ReplyDead(t.dst, t.cookie)
  {
    forall d, id | d in s0.lists && d != c && id in s0.lists[d]
      ensures d in s.lists && id in s0.trackers
      ensures id in s.lists[d] <==> s0.trackers[id].src != c
      ensures s0.trackers[id].src == c && !s0.trackers[id].sync ==>
        ReplyDead(d, s0.trackers[id].cookie) in s.log.notices[|s0.log.notices|..]
    {
      assert ListOk(s0, d) && EntryOk(s0, d, id) && Linked(s0, id);
      FilteredIn(s0.lists[d], Ending(s0, c), id);
      if s0.trackers[id].src == c {
        assert id in Ending(s0, c) && EndedAs(s0, s, id, Died);
        if !s0.trackers[id].sync {
          assert s.log.notices[s.fates[id].at] in s.log.notices[|s0.log.notices|..];
        }
      }
    }
    forall k | 0 <= k < |entries|
      ensures
        && entries[k] in s0.trackers && var t := s0.trackers[entries[k]];
        s.log.notices[|s0.log.notices| + k] == ReplyDead(t.dst, t.cookie)
    {
      assert entries[k] in entries;
      assert (s0.log.notices + Deaths(s0.trackers, entries))[|s0.log.notices| + k] ==
        Deaths(s0.trackers, entries)[k];
    }
  }

  /** The steps of kdbus_conn_disconnect taken together. */
  lemma {:induction false} Disconnected(s0: Replies, s1: Replies, s2: Replies, c: nat, entries: seq<nat>)
    requires HeldByQueue(s0.trackers, entries) && Sound(s1) && QueueDropped(Marked(s0, c), s1, entries)
    requires Sound(s2) && Cleared(s1, s2, c) && c in s2.lists && s2.lists[c] == [] && Unawaited(s2, c)
    ensures Sound(Departed(s2, c)) && GoneWith(s0, Departed(s2, c), c, entries)
  {
    GoneThen(Marked(s0, c), s1, s2, c);
    GoneSince(s0, Departed(s2, c), c);
    DepartedSound(s2, c);
  }

  // ---------------------------------------------------------------- a takeover

  ghost function Redirect(t: Tracker, heir: nat, from: nat, nameId: nat): Tracker {
    if t.src == from && (nameId == 0 || t.nameId == nameId) then t.(src := heir) else t
  }

  /** Exactly the given windows were redirected. */
  ghost predicate Redirected(s: Replies, s': Replies, windows: set<nat>, heir: nat, from: nat, nameId: nat) {
    && s' == s.(trackers := s'.trackers) && s'.trackers.Keys == s.trackers.Keys
    && (forall id :: id in s.trackers ==>
          s'.trackers[id] == if id in windows then Redirect(s.trackers[id], heir, from, nameId) else s.trackers[id])
  }

  lemma {:induction false} RedirectedMore(
    s0: Replies, s: Replies, done: set<nat>, id: nat, heir: nat, from: nat, nameId: nat)
    requires Redirected(s0, s, done, heir, from, nameId) && id in s.trackers && heir != from
    ensures Redirected(s0, Changed(s, id, Redirect(s.trackers[id], heir, from, nameId)), done + {id}, heir, from,
      nameId)
  {
  }

  /** Of the open windows of third parties, exactly those for the name wait for the heir now. */
  lemma {:induction false} HeirExpected(s0: Replies, s: Replies, heir: nat, from: nat, nameId: nat)
    requires Sound(s0)
    requires Redirected(s0, s, Windows(s0, s0.lists.Keys - {from, heir}), heir, from, nameId)
    ensures forall c, id :: c in s0.lists && id in s0.lists[c] ==>
      && id in s0.trackers && id in s.trackers && var t := s0.trackers[id];
      && s.trackers[id] == t.(src := s.trackers[id].src)
      && s.trackers[id].src ==
         if c != from && c != heir && t.src == from && (nameId == 0 || t.nameId == nameId) then heir else t.src
  {
    forall c, id | c in s0.lists && id in s0.lists[c]
      ensures id in s0.trackers && s0.trackers[id].dst == c && Linked(s0, id)
    {
      assert ListOk(s0, c) && EntryOk(s0, c, id);
    }
  }

  lemma {:induction false} WindowsMore(s: Replies, conns: set<nat>, c: nat)
    requires Sound(s) && c in s.lists
    ensures Windows(s, conns + {c}) == Windows(s, conns) + Elements(s.lists[c])
  {
    assert ListOk(s, c) && forall id :: id in s.lists[c] ==> EntryOk(s, c, id);
  }
}
