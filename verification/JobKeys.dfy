/** Which requests share an idempotency record, and which job a record leads to after crashes
    and restarts (`webcontrol/jobs.go`). */
module JobKeys {
  import opened Wrappers
  import opened Sets
  import opened JobModel
  import opened JobTheorems
  import opened JobRuns

  // ------------------------------------------------------------ what shares a record

  predicate HasNul(s: string)
  {
    '\0' in s
  }

  predicate SameClaim(r: Request, s: Request)
  {
    r.actor.id == s.actor.id && r.server == s.server && r.key == s.key
  }

  lemma {:induction false} SplitAtNul(a: string, x: string, b: string, y: string)
    requires '\0' !in a && '\0' !in b
    requires a + "\0" + x == b + "\0" + y
    ensures a == b && x == y
    decreases |a|
  {
    var s, t := a + "\0" + x, b + "\0" + y;
    assert s == t;
    if a == [] || b == [] {
      assert s[0] == t[0];
      assert a == [] && b == [];
      assert s[1..] == x && t[1..] == y;
    } else {
      assert s[0] == a[0] && t[0] == b[0];
      assert s[1..] == a[1..] + "\0" + x && t[1..] == b[1..] + "\0" + y;
      SplitAtNul(a[1..], x, b[1..], y);
      assert a == [a[0]] + a[1..] && b == [b[0]] + b[1..];
    }
  }

  lemma {:induction false} CutAtNul(s: string) returns (before: string, after: string)
    requires HasNul(s)
    ensures s == before + "\0" + after && !HasNul(before)
  {
    if s[0] == '\0' {
      before, after := "", s[1..];
      assert s == [s[0]] + s[1..];
    } else {
      assert s == [s[0]] + s[1..];
      before, after := CutAtNul(s[1..]);
      before := [s[0]] + before;
    }
  }

  predicate NulFree(r: Request)
  {
    !HasNul(r.actor.id) && !HasNul(r.server) && !HasNul(r.key)
  }

  lemma KeyParts(r: Request)
    ensures KeyOf(r) == r.actor.id + "\0" + (r.server + "\0" + r.key)
    ensures multiset(KeyOf(r))['\0']
         == 2 + multiset(r.actor.id)['\0'] + multiset(r.server)['\0'] + multiset(r.key)['\0']
  {
    assert KeyOf(r) == r.actor.id + "\0" + (r.server + "\0" + r.key);
  }

  lemma NulFreeIsAlone(r: Request, s: Request)
    requires NulFree(r) && KeyOf(r) == KeyOf(s)
    ensures SameClaim(r, s)
  {
    KeyParts(r);
    KeyParts(s);
    assert multiset(s.actor.id)['\0'] == 0 && multiset(s.server)['\0'] == 0;
    SplitAtNul(r.actor.id, r.server + "\0" + r.key, s.actor.id, s.server + "\0" + s.key);
    SplitAtNul(r.server, r.key, s.server, s.key);
  }

  /** With a NUL in one of its parts, another request has the same record. */
  lemma NulIsShared(r: Request) returns (s: Request)
    requires !NulFree(r)
    ensures KeyOf(s) == KeyOf(r) && !SameClaim(r, s)
  {
    KeyParts(r);
    if HasNul(r.actor.id) {
      var before, after := CutAtNul(r.actor.id);
      s := r.(actor := r.actor.(id := before), server := after, key := r.server + "\0" + r.key);
    } else if HasNul(r.server) {
      var before, after := CutAtNul(r.server);
      s := r.(server := before, key := after + "\0" + r.key);
      assert (before + "\0" + after) + "\0" + r.key == before + "\0" + (after + "\0" + r.key);
    } else {
      var before, after := CutAtNul(r.key);
      s := r.(actor := r.actor.(id := r.actor.id + "\0" + r.server), server := before, key := after);
      assert r.actor.id + "\0" + (r.server + "\0" + (before + "\0" + after))
          == (r.actor.id + "\0" + r.server) + "\0" + (before + "\0" + after);
    }
    KeyParts(s);
  }

  /** A request that differs in actor, server or key shares a request's record exactly when
      one of these parts contains a NUL. */
  lemma SharedRecordIff(r: Request)
    ensures (exists s :: KeyOf(s) == KeyOf(r) && !SameClaim(r, s)) <==> !NulFree(r)
  {
    if NulFree(r) {
      forall s | KeyOf(s) == KeyOf(r) ensures SameClaim(r, s) {
        NulFreeIsAlone(r, s);
      }
    } else {
      var s := NulIsShared(r);
      assert KeyOf(s) == KeyOf(r) && !SameClaim(r, s);
    }
  }

  /** The identifiers that reach the store have passed `ValidID`, or are the word "host", so
      one record stands for one (actor, server, key). */
  lemma KeyIdentifiesRequest(r: Request, s: Request)
    requires ValidId(r.actor.id) && ValidId(r.server) && ValidId(r.key)
    ensures KeyOf(r) == KeyOf(s) <==> SameClaim(r, s)
  {
    assert NulFree(r);
    if KeyOf(r) == KeyOf(s) { NulFreeIsAlone(r, s); }
  }

  // ------------------------------------------------------- which job a record leads to

  /** The last file of a key, in the order in which the directory is read. */
  function LastOf(files: map<Id, Job>, order: seq<Id>, k: Key): Option<Id>
  {
    if order == [] then None
    else if LastOf(files, order[1..], k).Some? then LastOf(files, order[1..], k)
    else if order[0] in files && files[order[0]].key == k then Some(order[0])
    else None
  }

  lemma {:induction false} LastOfFrame(files: map<Id, Job>, later: map<Id, Job>, order: seq<Id>, k: Key)
    requires forall id :: id in files <==> id in later
    requires forall id :: id in files ==> later[id].key == files[id].key
    ensures LastOf(later, order, k) == LastOf(files, order, k)
    decreases |order|
  {
    if order != [] { LastOfFrame(files, later, order[1..], k); }
  }

  lemma {:induction false} LastOfIsOne(files: map<Id, Job>, order: seq<Id>, k: Key)
    ensures LastOf(files, order, k).Some? ==>
      LastOf(files, order, k).value in order && LastOf(files, order, k).value in files
      && files[LastOf(files, order, k).value].key == k
    ensures LastOf(files, order, k).None? ==> forall id :: id in order && id in files ==> files[id].key != k
    decreases |order|
  {
    if order != [] {
      LastOfIsOne(files, order[1..], k);
      assert order == [order[0]] + order[1..];
    }
  }

  /** A file of the key is followed by another one. */
  ghost predicate Followed(files: map<Id, Job>, order: seq<Id>, k: Key, id: Id)
  {
    exists i, j :: 0 <= i < j < |order| && order[i] == id && order[j] in files && files[order[j]].key == k
  }

  lemma FollowedAtHead(files: map<Id, Job>, order: seq<Id>, k: Key)
    requires order != [] && Distinct(order)
    ensures Followed(files, order, k, order[0]) <==> exists x :: x in order[1..] && x in files && files[x].key == k
  {
    if x :| x in order[1..] && x in files && files[x].key == k {
      var j :| 0 <= j < |order| - 1 && order[1..][j] == x;
      assert order[j + 1] == x;
    }
    assert forall j :: 0 < j < |order| ==> order[j] == order[1..][j - 1];
  }

  lemma FollowedInRest(files: map<Id, Job>, order: seq<Id>, k: Key, id: Id)
    requires order != [] && order[0] != id
    ensures Followed(files, order, k, id) <==> Followed(files, order[1..], k, id)
  {
    assert forall j :: 0 < j < |order| ==> order[j] == order[1..][j - 1];
    if Followed(files, order[1..], k, id) {
      var rest := order[1..];
      var i, j :| 0 <= i < j < |rest| && rest[i] == id && rest[j] in files && files[rest[j]].key == k;
      assert order[i + 1] == id && order[j + 1] == rest[j];
    }
  }

  lemma {:induction false} LastOfIff(files: map<Id, Job>, order: seq<Id>, k: Key, id: Id)
    requires Distinct(order) && id in order && id in files && files[id].key == k
    ensures LastOf(files, order, k) == Some(id) <==> !Followed(files, order, k, id)
    decreases |order|
  {
    hide Followed;
    TailElements(order);
    assert order == [order[0]] + order[1..];
    LastOfIsOne(files, order[1..], k);
    if order[0] == id {
      FollowedAtHead(files, order, k);
      assert id !in order[1..] by { assert id !in Elements(order[1..]); }
    } else {
      FollowedInRest(files, order, k, id);
      LastOfIff(files, order[1..], k, id);
    }
  }

  function KeyFound(keys: map<Key, Id>, k: Key): Option<Id>
  {
    if k in keys then Some(keys[k]) else None
  }

  lemma RecoveredKeepsKey(v: Job, now: Time)
    ensures Recovered(v, now).key == v.key && Recovered(v, now).id == v.id
  {
  }

  /** Reading the directory to its end leads each key to its last file. */
  lemma {:induction false} LoadIndexesLast(w: World, order: seq<Id>, saves: map<Id, SaveOutcome>, now: Time, k: Key)
    requires !w.up && (forall id :: id in w.disk.files ==> w.disk.files[id].id == id)
    requires Load(w, order, saves, now).up
    ensures KeyFound(Load(w, order, saves, now).mem.keys, k)
         == if LastOf(w.disk.files, order, k).Some? then LastOf(w.disk.files, order, k) else KeyFound(w.mem.keys, k)
    decreases |order|
  {
    if order != [] {
      var id := order[0];
      var v := Recovered(w.disk.files[id], now);
      var needs := NeedsRecovery(w.disk.files[id]);
      RecoveredKeepsKey(w.disk.files[id], now);
      SaveFrame(w, v, OutcomeOf(saves, id));
      hide Recovered, NeedsRecovery, ValidId, Save;
      var saved := if needs then Save(w, v, Saved) else w;
      var next := saved.(mem := saved.mem.(items := saved.mem.items[id := v], keys := saved.mem.keys[v.key := id]));
      LoadIndexesLast(next, order[1..], saves, now, k);
      LastOfFrame(w.disk.files, saved.disk.files, order[1..], k);
    }
  }

  /** While the process stays up no key changes the job it leads to. */
  lemma KeysStay(w: World, e: Event, k: Key)
    requires Inv(w) && Enabled(w, e) && w.up && !e.Crash? && k in w.mem.keys
    ensures Apply(w, e).up && KeyFound(Apply(w, e).mem.keys, k) == KeyFound(w.mem.keys, k)
  {
    hide InvBut, Repair, Verdict, Amended, ValidId;
    if e.Start? { RepairKeeps(w, e.order, e.repairs); }
  }

  lemma {:induction false} KeysStayInRun(w: World, es: seq<Event>, k: Key)
    requires Inv(w) && Possible(w, es) && w.up && k in w.mem.keys
    requires forall i :: 0 <= i < |es| ==> !es[i].Crash?
    ensures Run(w, es).up && KeyFound(Run(w, es).mem.keys, k) == KeyFound(w.mem.keys, k)
    decreases |es|
  {
    if es != [] {
      StepKeeps(w, es[0]);
      KeysStay(w, es[0], k);
      hide Inv, Apply, Enabled;
      KeysStayInRun(Apply(w, es[0]), es[1..], k);
    }
  }

  /** Some refused acceptance of the key left a file that the directory lists after `id`. */
  ghost predicate OrphanFollows(w: World, order: seq<Id>, k: Key, id: Id)
  {
    exists i, j :: 0 <= i < j < |order| && order[i] == id && order[j] in w.hist.orphans
      && order[j] in w.disk.files && w.disk.files[order[j]].key == k
  }

  /** After a restart an accepted request finds its own job, from then on and as long as the
      process stays up, exactly when the directory, which is read in the order of its names,
      lists no orphan of the same key after the job's own file. */
  lemma RetryFindsItsJobIff(w: World, e: Event, es: seq<Event>, k: Key)
    requires Reachable(w) && !w.up && e.Recover? && Enabled(w, e) && k in w.hist.accepted
    requires (ReachableIsSound(w); StepKeeps(w, e); Apply(w, e).up && Possible(Apply(w, e), es))
    requires forall i :: 0 <= i < |es| ==> !es[i].Crash?
    ensures (ReachableIsSound(w); StepKeeps(w, e); var v := Run(Apply(w, e), es);
      && k in v.mem.keys
      && (v.mem.keys[k] == w.hist.accepted[k].id <==> !OrphanFollows(w, e.order, k, w.hist.accepted[k].id))
      && (v.mem.keys[k] == w.hist.accepted[k].id ==>
            w.hist.accepted[k].id in v.mem.items && SameRequest(v.mem.items[w.hist.accepted[k].id], w.hist.accepted[k])))
  {
    ReachableIsSound(w);
    StepKeeps(w, e);
    var id := w.hist.accepted[k].id;
    AcceptedOnDisk(w, k);
    DownHasNoKeys(w);
    LoadIndexesLast(w, e.order, e.saves, e.now, k);
    LastOfIff(w.disk.files, e.order, k, id);
    LastOfIsOne(w.disk.files, e.order, k);
    OthersAreOrphans(w, e.order, k);
    AcceptedStaysOneStep(w, e, k);
    hide Inv, InvBut, Load, Run, Possible, OrphanFollows, Followed, LastOf;
    KeysStayInRun(Apply(w, e), es, k);
    AcceptedStays(Apply(w, e), es, k);
    JobRuns.RunKeeps(Apply(w, e), es);
    FoundIsAccepted(Run(Apply(w, e), es), k);
  }

  lemma FoundIsAccepted(v: World, k: Key)
    requires Inv(v) && v.up && k in v.mem.keys && k in v.hist.accepted
    ensures v.mem.keys[k] == v.hist.accepted[k].id ==>
      v.mem.keys[k] in v.mem.items && SameRequest(v.mem.items[v.mem.keys[k]], v.hist.accepted[k])
  {
    hide WorkerInv, AgreeInv, EarnedInv, RunInv, ValidId;
  }

  lemma DownHasNoKeys(w: World)
    requires Inv(w) && !w.up
    ensures w.mem.keys == map[]
    ensures forall id :: id in w.disk.files ==> w.disk.files[id].id == id
  {
    hide WorkerInv, AgreeInv, EarnedInv, RunInv, ValidId, IndexInv, MemoryInv;
  }

  lemma AcceptedOnDisk(w: World, k: Key)
    requires Inv(w) && k in w.hist.accepted
    ensures w.hist.accepted[k].id in w.disk.files && w.disk.files[w.hist.accepted[k].id].key == k
  {
    hide WorkerInv, AgreeInv, EarnedInv, RunInv, ValidId, MemoryInv;
  }

  /** A file of an accepted key that is not the accepted job's is an orphan. */
  lemma OthersAreOrphans(w: World, order: seq<Id>, k: Key)
    requires Inv(w) && k in w.hist.accepted && Distinct(order)
    ensures Followed(w.disk.files, order, k, w.hist.accepted[k].id)
       <==> OrphanFollows(w, order, k, w.hist.accepted[k].id)
  {
    hide WorkerInv, AgreeInv, EarnedInv, RunInv, ValidId, MemoryInv, DiskInv;
    var id := w.hist.accepted[k].id;
    if Followed(w.disk.files, order, k, id) {
      var i, j :| 0 <= i < j < |order| && order[i] == id && order[j] in w.disk.files && w.disk.files[order[j]].key == k;
      assert order[j] != id;
      assert order[j] in w.hist.orphans;
    }
  }

  /** A process that accepted the job itself always finds it. */
  lemma AcceptedHereIsFound(w: World, e: Event, es: seq<Event>)
    requires Reachable(w) && e.Start? && Enabled(w, e) && AnswerTo(w, e).Started?
    requires (ReachableIsSound(w); StepKeeps(w, e); Possible(Apply(w, e), es))
    requires forall i :: 0 <= i < |es| ==> !es[i].Crash?
    ensures (ReachableIsSound(w); StepKeeps(w, e);
      && KeyFound(Run(Apply(w, e), es).mem.keys, KeyOf(e.req)) == Some(e.id)
      && KeyOf(e.req) in Apply(w, e).hist.accepted && Apply(w, e).hist.accepted[KeyOf(e.req)].id == e.id)
  {
    ReachableIsSound(w);
    StepKeeps(w, e);
    StartLeadsToJob(w, e);
    hide Inv, Apply, Enabled;
    KeysStayInRun(Apply(w, e), es, KeyOf(e.req));
  }

  lemma StartLeadsToJob(w: World, e: Event)
    requires Inv(w) && e.Start? && Enabled(w, e) && AnswerTo(w, e).Started?
    ensures var v := Apply(w, e);
      && v.up && KeyFound(v.mem.keys, KeyOf(e.req)) == Some(e.id)
      && KeyOf(e.req) in v.hist.accepted && v.hist.accepted[KeyOf(e.req)].id == e.id
  {
    hide InvBut, Repair, ValidId, KeyOf;
    KeysHaveJobs(w);
    RepairKeeps(w, e.order, e.repairs);
  }
}
