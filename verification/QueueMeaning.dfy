/** What the single numbers of GetQueueInfo mean: how many accepted tasks of the queue are in which stage. */
module QueueMeaning {
  import opened Wrappers
  import opened Tasks
  import opened Streams
  import opened Keys
  import opened Lifecycle
  import opened Places
  import opened Affinity
  import opened NoLoss
  import opened Ownership
  import opened Stages
  import opened Conservation
  import opened Sets

  /** The stages, as far as GetQueueInfo tells them apart. `Delivered` tasks are pending in the consumer group. */
  datatype Group = Unread | Delivered | Later | DeadLetter | Over

  function GroupOf(stage: Stage): Group
  {
    match stage
    case Queued(_) => Unread
    case InSet(_) => Later
    case Buried => DeadLetter
    case Done => Over
    case Absent => Over
    case _ => Delivered
  }

  /** The accepted tasks of queue `q` in stages of this group. */
  ghost function InGroup(s: Sys, q: string, g: Group): set<string>
  {
    set t | t in s.accepted && s.accepted[t].Queue() == q && GroupOf(StageOf(s, t)) == g
  }

  function StreamPlaces(ids: set<nat>): set<Place>
  {
    set id | id in ids :: InStream(id)
  }

  function DlqPlaces(ids: set<nat>): set<Place>
  {
    set id | id in ids :: InDlq(id)
  }

  function ScheduledPlaces(members: set<Task>): set<Place>
  {
    set m | m in members :: InScheduled(m)
  }

  function RetryPlaces(members: set<Task>): set<Place>
  {
    set m | m in members :: InRetry(m)
  }

  /** The places of a queue that hold these tasks. */
  function PlacesOf(k: Queue, g: Group): set<Place>
  {
    match g
    case Unread => StreamPlaces(k.stream.entries.Keys - k.stream.pel.Keys - Junk(k))
    case Delivered => StreamPlaces(k.stream.pel.Keys - Junk(k))
    case Later => ScheduledPlaces(k.scheduled.Keys) + RetryPlaces(k.retry.Keys)
    case DeadLetter => DlqPlaces(k.dlq.entries.Keys)
    case Over => {}
  }

  /** A set and its image under an injection have the same size. */
  lemma {:induction false} ImageSize<X, Y>(a: set<X>, b: set<Y>, f: X --> Y)
    requires forall x :: x in a ==> f.requires(x) && f(x) in b
    requires forall x, x' :: x in a && x' in a && f(x) == f(x') ==> x == x'
    requires forall y :: y in b ==> exists x :: x in a && f(x) == y
    ensures |a| == |b|
    decreases |a|
  {
    if a == {} {
      assert b == {};
    } else {
      var x :| x in a;
      forall y | y in b - {f(x)}
        ensures exists x' :: x' in a - {x} && f(x') == y
      {
        var x' :| x' in a && f(x') == y;
        assert x' in a - {x};
      }
      ImageSize(a - {x}, b - {f(x)}, f);
    }
  }

  /** An accepted task that is not over has its place on its own queue. */
  lemma PlaceOfTask(s: Sys, q: string, t: string, g: Group) returns (p: Place)
    requires Owned(s) && t in InGroup(s, q, g) && g != Over
    ensures Has(s.db.At(q), p) && TaskAt(s.db.At(q), p).id == t && GroupOf(StageAt(s, q, p)) == g
  {
    hide Has, TaskAt, StageAt, PlacesOk, AllIdsOk, HoldersOk, QueuesOwned, CopiesKnown, SingleCopy, SuccessesOk,
      HoldersOwn, TaskOk, LookupsOk;
    var q', p' :| Copy(s.db, t, q', p');
    CopyStage(s, t, q', p');
    TaskOfPlace(s, q', p');
    p := p';
  }

  lemma TaskOfPlace(s: Sys, q: string, p: Place)
    requires Owned(s) && Has(s.db.At(q), p)
    ensures var t := TaskAt(s.db.At(q), p).id;
            t in s.accepted && s.accepted[t].Queue() == q && StageOf(s, t) == StageAt(s, q, p)
  {
    hide Has, TaskAt, StageAt, StageOf, PlacesOk, AllIdsOk, HoldersOk, QueuesOwned, CopiesKnown, SingleCopy,
      SuccessesOk, HoldersOwn, LookupsOk;
    StageIs(s, q, p);
    CopyKnown(s, q, p);
    PlaceFits(s.db, q, p);
  }

  /** In which places a task is in a stage of this group. */
  lemma PlaceGroup(s: Sys, q: string, p: Place, g: Group)
    requires IdsOk(s.db.At(q)) && QueueOwned(s.db.At(q))
    ensures p in PlacesOf(s.db.At(q), g) <==> Has(s.db.At(q), p) && GroupOf(StageAt(s, q, p)) == g
  {
    if p.InStream? { StreamGroup(s, q, p.id); }
  }

  lemma StreamGroup(s: Sys, q: string, id: nat)
    requires IdsOk(s.db.At(q)) && QueueOwned(s.db.At(q))
    ensures s.db.At(q).stream.HasTask(id) ==>
              GroupOf(StageAt(s, q, InStream(id))) == if id in s.db.At(q).stream.pel then Delivered else Unread
  {
  }

  lemma GroupSize(s: Sys, q: string, g: Group)
    requires Owned(s) && g != Over
    ensures |InGroup(s, q, g)| == |PlacesOf(s.db.At(q), g)|
  {
    hide Owned, PlacesOf, InGroup, Has, TaskAt, StageOf, StageAt, IdsOk, QueueOwned;
    var k := s.db.At(q);
    QueueIsOwned(s, q);
    var f := p requires Has(k, p) => TaskAt(k, p).id;
    forall p | p in PlacesOf(k, g)
      ensures Has(k, p) && f(p) in InGroup(s, q, g)
    {
      PlaceGroup(s, q, p, g);
      TaskOfPlace(s, q, p);
      IsInGroup(s, q, f(p), g);
    }
    forall p, p' | p in PlacesOf(k, g) && p' in PlacesOf(k, g) && f(p) == f(p')
      ensures p == p'
    {
      OnePlace(s, q, p, q, p');
    }
    forall t | t in InGroup(s, q, g)
      ensures exists p :: p in PlacesOf(k, g) && f(p) == t
    {
      var p := PlaceOfTask(s, q, t, g);
      PlaceGroup(s, q, p, g);
    }
    ImageSize(PlacesOf(k, g), InGroup(s, q, g), f);
  }

  lemma IsInGroup(s: Sys, q: string, t: string, g: Group)
    requires t in s.accepted && s.accepted[t].Queue() == q && GroupOf(StageOf(s, t)) == g
    ensures t in InGroup(s, q, g)
  {
  }

  lemma {:induction false} StreamPlacesSize(ids: set<nat>)
    ensures |StreamPlaces(ids)| == |ids|
    decreases |ids|
  {
    if ids != {} {
      var id :| id in ids;
      StreamPlacesSize(ids - {id});
      assert StreamPlaces(ids) == StreamPlaces(ids - {id}) + {InStream(id)};
    }
  }

  lemma {:induction false} DlqPlacesSize(ids: set<nat>)
    ensures |DlqPlaces(ids)| == |ids|
    decreases |ids|
  {
    if ids != {} {
      var id :| id in ids;
      DlqPlacesSize(ids - {id});
      assert DlqPlaces(ids) == DlqPlaces(ids - {id}) + {InDlq(id)};
    }
  }

  lemma {:induction false} ScheduledPlacesSize(members: set<Task>)
    ensures |ScheduledPlaces(members)| == |members|
    decreases |members|
  {
    if members != {} {
      var m :| m in members;
      ScheduledPlacesSize(members - {m});
      assert ScheduledPlaces(members) == ScheduledPlaces(members - {m}) + {InScheduled(m)};
    }
  }

  lemma {:induction false} RetryPlacesSize(members: set<Task>)
    ensures |RetryPlaces(members)| == |members|
    decreases |members|
  {
    if members != {} {
      var m :| m in members;
      RetryPlacesSize(members - {m});
      assert RetryPlaces(members) == RetryPlaces(members - {m}) + {InRetry(m)};
    }
  }

  lemma SetSizes(k: Queue)
    ensures |PlacesOf(k, DeadLetter)| == |k.dlq.entries|
    ensures |PlacesOf(k, Later)| == |k.scheduled| + |k.retry|
  {
    DlqPlacesSize(k.dlq.entries.Keys);
    ScheduledPlacesSize(k.scheduled.Keys);
    RetryPlacesSize(k.retry.Keys);
    assert ScheduledPlaces(k.scheduled.Keys) !! RetryPlaces(k.retry.Keys);
  }

  lemma StreamSizes(k: Queue)
    requires QueueOwned(k)
    ensures |PlacesOf(k, Unread)| + |Junk(k) - k.stream.pel.Keys| == |k.stream.entries| - |k.stream.pel|
    ensures |PlacesOf(k, Delivered)| + |Junk(k) * k.stream.pel.Keys| == |k.stream.pel|
  {
    var (entries, pel) := (k.stream.entries.Keys, k.stream.pel.Keys);
    StreamPlacesSize(entries - pel - Junk(k));
    StreamPlacesSize(pel - Junk(k));
    SplitSizes(entries, pel, Junk(k));
  }

  lemma SplitSizes(entries: set<nat>, pel: set<nat>, junk: set<nat>)
    requires pel <= entries && junk <= entries
    ensures |entries - pel - junk| + |junk - pel| == |entries| - |pel|
    ensures |pel - junk| + |junk * pel| == |pel|
  {
    SubsetSize(pel, entries);
    assert entries - pel == (entries - pel - junk) + (junk - pel);
    assert pel == (pel - junk) + junk * pel;
  }

  lemma PartitionSize(tasks: set<string>, f: string -> Group)
    ensures |tasks| == |set t | t in tasks && f(t) == Unread| + |set t | t in tasks && f(t) == Delivered|
                       + |set t | t in tasks && f(t) == Later| + |set t | t in tasks && f(t) == DeadLetter|
                       + |set t | t in tasks && f(t) == Over|
  {
    var (a, b) := (set t | t in tasks && f(t) == Unread, set t | t in tasks && f(t) == Delivered);
    var (c, d) := (set t | t in tasks && f(t) == Later, set t | t in tasks && f(t) == DeadLetter);
    var e := set t | t in tasks && f(t) == Over;
    assert a !! b && a + b !! c && a + b + c !! d && a + b + c + d !! e;
    assert tasks == a + b + c + d + e;
  }

  /** Every accepted task of a queue is in exactly one group. */
  lemma GroupsPartition(s: Sys, q: string)
    ensures |AcceptedIn(s.accepted, q)|
            == |InGroup(s, q, Unread)| + |InGroup(s, q, Delivered)| + |InGroup(s, q, Later)|
               + |InGroup(s, q, DeadLetter)| + |InGroup(s, q, Over)|
  {
    var f := (t: string) => GroupOf(StageOf(s, t));
    PartitionSize(AcceptedIn(s.accepted, q), f);
    forall g
      ensures InGroup(s, q, g) == set t | t in AcceptedIn(s.accepted, q) && f(t) == g
    {
      hide StageOf, GroupOf, Task.Queue;
    }
  }

  lemma JunkSplits(k: Queue)
    ensures |Junk(k)| == |Junk(k) - k.stream.pel.Keys| + |Junk(k) * k.stream.pel.Keys|
  {
    assert Junk(k) == (Junk(k) - k.stream.pel.Keys) + Junk(k) * k.stream.pel.Keys;
  }

  /**
   The theorem on GetQueueInfo, for all runs under the rules of `Ownership`: what each of its numbers counts. Messages
   without a task are counted as pending until they are delivered, and as active until they are acknowledged.
   */
  lemma QueueInfoMeans(actions: seq<Action>, q: string)
    requires IsOwnedRun(INIT, actions)
    ensures IsRun(INIT, actions)
    ensures var s := After(INIT, actions);
            var (k, info) := (s.db.At(q), s.db.At(q).Info());
            var tasks := AcceptedIn(s.accepted, q);
            && info.dead == |set t | t in tasks && StageOf(s, t).Buried?|
            && info.completed == |set t | t in tasks && StageOf(s, t).Done?|
            && info.scheduled + info.retry == |set t | t in tasks && StageOf(s, t).InSet?|
            && info.pending == |set t | t in tasks && StageOf(s, t).Queued?| + |Junk(k) - k.stream.pel.Keys|
            && info.active == |set t | t in tasks && IsDelivered(StageOf(s, t))| + |Junk(k) * k.stream.pel.Keys|
  {
    hide After, IsRun, IsOwnedRun, Owned, Conserved, InGroup, PlacesOf, Junk, IdsOk, QueueOwned;
    InitConserved(q);
    AllConserved(INIT, actions, q);
    var s := After(INIT, actions);
    ConservedMeans(s, q);
    QueueIsOwned(s, q);
    SetSizes(s.db.At(q));
    StreamSizes(s.db.At(q));
    GroupSize(s, q, Unread);
    GroupSize(s, q, Delivered);
    GroupSize(s, q, Later);
    GroupSize(s, q, DeadLetter);
    GroupsPartition(s, q);
    JunkSplits(s.db.At(q));
    GroupsMean(s, q);
  }

  lemma GroupsMean(s: Sys, q: string)
    requires Owned(s)
    ensures var tasks := AcceptedIn(s.accepted, q);
            && InGroup(s, q, DeadLetter) == (set t | t in tasks && StageOf(s, t).Buried?)
            && InGroup(s, q, Over) == (set t | t in tasks && StageOf(s, t).Done?)
            && InGroup(s, q, Later) == (set t | t in tasks && StageOf(s, t).InSet?)
            && InGroup(s, q, Unread) == (set t | t in tasks && StageOf(s, t).Queued?)
            && InGroup(s, q, Delivered) == (set t | t in tasks && IsDelivered(StageOf(s, t)))
  {
    hide Owned, Task.Queue, StageAt, StageOf, IsDelivered, GroupOf;
    forall t | t in s.accepted
      ensures !StageOf(s, t).Absent?
    {
      NotAbsent(s, t);
    }
    GroupsTell(s);
  }

  lemma GroupsTell(s: Sys)
    ensures forall t :: var stage := StageOf(s, t);
              && (GroupOf(stage) == DeadLetter <==> stage.Buried?) && (GroupOf(stage) == Later <==> stage.InSet?)
              && (GroupOf(stage) == Over <==> stage.Done? || stage.Absent?)
              && (GroupOf(stage) == Unread <==> stage.Queued?) && (GroupOf(stage) == Delivered <==> IsDelivered(stage))
  {
    hide StageOf;
  }

  lemma NotAbsent(s: Sys, t: string)
    requires t in s.accepted
    ensures !StageOf(s, t).Absent?
  {
    hide Copy;
  }

  /** Handed to a worker, which may be gone, and not acknowledged yet. */
  predicate IsDelivered(stage: Stage)
  {
    stage.Orphaned? || stage.Waiting? || stage.TurnedAway? || stage.Handling? || stage.Handled?
  }
}
