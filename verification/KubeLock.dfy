/** Any number of processes merging into one kubeconfig under its lock file
    (apps/cli/cmd/clusters_kubeconfig_write.go:196-242): lock, read, merge, write, unlock, in every
    interleaving, with failures and crashes anywhere. */
module KubeLock {
  import opened Options
  import opened Kubeconfig
  import opened KubeconfigLaws

  const TRIES := 50

  /** What a process merges, and under which name. */
  datatype Job = Job(incoming: Document, name: string)

  /** `Refused` holds the lock and has written nothing; `Crashed` never releases a lock it holds. */
  datatype Process = Waiting | Holding | HasRead(file: Document) | Written | Refused | Done | Failed | GaveUp | Crashed

  /** `wrote` is the order the writes happened in. */
  datatype State = State(file: Document, lock: Option<nat>, procs: seq<Process>, attempts: seq<nat>, wrote: seq<nat>)

  /** `ok` is false when the system call fails. */
  datatype Step = Acquire(p: nat, ok: bool) | Read(p: nat, ok: bool) | Write(p: nat, ok: bool) | Release(p: nat) | Crash(p: nat)

  function Start(file: Document, n: nat): State {
    State(file, None, seq(n, _ => Waiting), seq(n, _ => 0), [])
  }

  function Becomes(s: State, p: nat, q: Process): State
    requires p < |s.procs|
  {
    s.(procs := s.procs[p := q])
  }

  /** One turn of `lockKubeconfig`: the exclusive create succeeds, or the file is there, or it fails. */
  function TryLock(s: State, p: nat, ok: bool): State
    requires p < |s.procs| && |s.attempts| == |s.procs|
  {
    var t := s.(attempts := s.attempts[p := s.attempts[p] + 1]);
    if !ok then Becomes(t, p, Failed)
    else if s.lock == None then Becomes(t.(lock := Some(p)), p, Holding)
    else if s.attempts[p] + 1 >= TRIES then Becomes(t, p, GaveUp)
    else t
  }

  function MergeAndWrite(jobs: seq<Job>, s: State, p: nat, ok: bool): State
    requires p < |s.procs| && p < |jobs| && s.procs[p].HasRead?
  {
    var merged := MergedDocument(s.procs[p].file, jobs[p].incoming, jobs[p].name);
    if merged == None || !ok then Becomes(s, p, Refused)
    else Becomes(s.(file := merged.value, wrote := s.wrote + [p]), p, Written)
  }

  /** One step of one process; a step it is not at does nothing. */
  function Next(jobs: seq<Job>, s: State, step: Step): State
    requires |s.procs| == |jobs| && |s.attempts| == |jobs|
  {
    if step.p >= |jobs| then s
    else
      match (step, s.procs[step.p])
      case (Acquire(p, ok), Waiting) => TryLock(s, p, ok)
      case (Read(p, ok), Holding) => Becomes(s, p, if ok then HasRead(s.file) else Refused)
      case (Write(p, ok), HasRead(_)) => MergeAndWrite(jobs, s, p, ok)
      case (Release(p), Written) => Becomes(s.(lock := None), p, Done)
      case (Release(p), Refused) => Becomes(s.(lock := None), p, Failed)
      case (Crash(p), q) => if q.Done? || q.Failed? || q.GaveUp? then s else Becomes(s, p, Crashed)
      case _ => s
  }

  // ----- what every step keeps -----

  predicate Known(jobs: seq<Job>, order: seq<nat>) {
    forall i :: 0 <= i < |order| ==> order[i] < |jobs|
  }

  /** The writes, one after the other. */
  function Serial(jobs: seq<Job>, file: Document, order: seq<nat>): Option<Document>
    requires Known(jobs, order)
  {
    if order == [] then Some(file)
    else
      var last, before := order[|order| - 1], Serial(jobs, file, order[..|order| - 1]);
      if before == None then None else MergedDocument(before.value, jobs[last].incoming, jobs[last].name)
  }

  predicate InCritical(q: Process) {
    q.Holding? || q.HasRead? || q.Written? || q.Refused?
  }

  predicate HasWritten(q: Process) {
    q.Written? || q.Done? || q.Crashed?
  }

  /** Whoever is between lock and unlock has the lock, and what it read is what the file is. */
  ghost predicate Exclusive(s: State) {
    && (forall p :: 0 <= p < |s.procs| && InCritical(s.procs[p]) ==> s.lock == Some(p))
    && (forall p :: 0 <= p < |s.procs| && s.procs[p].HasRead? ==> s.procs[p].file == s.file)
  }

  ghost predicate FewTries(s: State) {
    && |s.attempts| == |s.procs|
    && (forall p :: 0 <= p < |s.procs| ==> s.attempts[p] <= TRIES && (s.procs[p].Waiting? ==> s.attempts[p] < TRIES))
  }

  /** The record of writes: each by a process that has got that far, once. */
  ghost predicate Recorded(s: State) {
    && (forall i :: 0 <= i < |s.wrote| ==> s.wrote[i] < |s.procs| && HasWritten(s.procs[s.wrote[i]]))
    && (forall p :: 0 <= p < |s.procs| && (s.procs[p].Written? || s.procs[p].Done?) ==> p in s.wrote)
    && (forall i, j :: 0 <= i < j < |s.wrote| ==> s.wrote[i] != s.wrote[j])
  }

  ghost predicate Inv(jobs: seq<Job>, file: Document, s: State) {
    && |s.procs| == |jobs| && Exclusive(s) && FewTries(s) && Recorded(s)
    && Known(jobs, s.wrote) && Serial(jobs, file, s.wrote) == Some(s.file)
  }

  lemma StepExclusive(jobs: seq<Job>, s: State, step: Step)
    requires |s.procs| == |jobs| && FewTries(s) && Exclusive(s)
    ensures Exclusive(Next(jobs, s, step)) && FewTries(Next(jobs, s, step))
  {
    hide MergedDocument;
  }

  /** A step changes the file only by a merge of what its process read. */
  lemma StepWrites(jobs: seq<Job>, s: State, step: Step)
    requires |s.procs| == |jobs| && |s.attempts| == |jobs|
    ensures var t, p := Next(jobs, s, step), step.p;
      || (t.wrote == s.wrote && t.file == s.file)
      || (p < |jobs| && s.procs[p].HasRead? && t.wrote == s.wrote + [p]
          && MergedDocument(s.procs[p].file, jobs[p].incoming, jobs[p].name) == Some(t.file))
  {
    hide MergedDocument;
  }

  lemma StepRecorded(jobs: seq<Job>, s: State, step: Step)
    requires |s.procs| == |jobs| && |s.attempts| == |jobs| && Recorded(s)
    ensures Recorded(Next(jobs, s, step))
  {
    hide MergedDocument, Next;
    StepWrites(jobs, s, step);
    StepMoves(jobs, s, step);
    var t := Next(jobs, s, step);
    forall p | 0 <= p < |t.procs| && (t.procs[p].Written? || t.procs[p].Done?) ensures p in t.wrote {
      if p == step.p && t.wrote != s.wrote { assert t.wrote[|s.wrote|] == p; }
    }
  }

  /** What a step makes of its process: it has written once it writes, and never again afterwards. */
  lemma StepMoves(jobs: seq<Job>, s: State, step: Step)
    requires |s.procs| == |jobs| && |s.attempts| == |jobs|
    ensures var t, p := Next(jobs, s, step), step.p;
      && |t.procs| == |s.procs|
      && (forall q :: 0 <= q < |s.procs| && q != p ==> t.procs[q] == s.procs[q])
      && (p < |s.procs| && HasWritten(s.procs[p]) ==> HasWritten(t.procs[p]))
      && (p < |s.procs| && (t.procs[p].Written? || t.procs[p].Done?) ==> s.procs[p].Written? || s.procs[p].Done? || t.wrote != s.wrote)
      && (t.wrote != s.wrote ==> p < |s.procs| && s.procs[p].HasRead? && t.procs[p].Written?)
  {
    hide MergedDocument;
  }

  lemma SerialSnoc(jobs: seq<Job>, file: Document, order: seq<nat>, p: nat)
    requires Known(jobs, order) && p < |jobs| && Serial(jobs, file, order).Some?
    ensures Known(jobs, order + [p])
    ensures Serial(jobs, file, order + [p]) ==
      MergedDocument(Serial(jobs, file, order).value, jobs[p].incoming, jobs[p].name)
  {
    hide MergedDocument;
    assert (order + [p])[..|order + [p]| - 1] == order;
  }

  lemma StepSerial(jobs: seq<Job>, file: Document, s: State, step: Step)
    requires Inv(jobs, file, s)
    ensures var t := Next(jobs, s, step); Known(jobs, t.wrote) && Serial(jobs, file, t.wrote) == Some(t.file)
  {
    hide MergedDocument, Recorded, Next, Serial, Known;
    StepWrites(jobs, s, step);
    if Next(jobs, s, step).wrote != s.wrote {
      SerialSnoc(jobs, file, s.wrote, step.p);
    }
  }

  lemma StepKeepsInv(jobs: seq<Job>, file: Document, s: State, step: Step)
    requires Inv(jobs, file, s)
    ensures Inv(jobs, file, Next(jobs, s, step))
  {
    hide MergedDocument, Recorded, Exclusive, Serial, Next, Known;
    StepExclusive(jobs, s, step);
    StepRecorded(jobs, s, step);
    StepSerial(jobs, file, s, step);
    SameProcesses(jobs, s, step);
  }

  lemma SameProcesses(jobs: seq<Job>, s: State, step: Step)
    requires |s.procs| == |jobs| && |s.attempts| == |jobs|
    ensures |Next(jobs, s, step).procs| == |jobs|
  {
    hide MergedDocument;
  }

  function Run(jobs: seq<Job>, file: Document, steps: seq<Step>): (s: State)
    ensures |s.procs| == |jobs| && |s.attempts| == |jobs|
  {
    if steps == [] then Start(file, |jobs|) else Next(jobs, Run(jobs, file, steps[..|steps| - 1]), steps[|steps| - 1])
  }

  /** Whatever the interleaving and whatever fails or crashes: at most one process is between lock and
      unlock, no process tries more than fifty times, and the file is exactly what the completed merges
      make of it one after the other. */
  lemma {:induction false} RunIsSerial(jobs: seq<Job>, file: Document, steps: seq<Step>)
    ensures Inv(jobs, file, Run(jobs, file, steps))
  {
    hide Next;
    if steps == [] {
      Begins(jobs, file);
    } else {
      RunIsSerial(jobs, file, steps[..|steps| - 1]);
      StepKeepsInv(jobs, file, Run(jobs, file, steps[..|steps| - 1]), steps[|steps| - 1]);
    }
  }

  lemma Begins(jobs: seq<Job>, file: Document)
    ensures Inv(jobs, file, Start(file, |jobs|))
  {
  }

  // ----- no completed merge is lost -----

  /** A minted, renamed kubeconfig. */
  predicate Minted(j: Job) {
    j.incoming.Top? && Paired(j.incoming.content) && Filed(j.incoming.content, j.name) && PointsAtItself(j.incoming.content, j.name)
  }

  predicate Readable(d: Document) {
    d.Top? ==> Paired(d.content)
  }

  /** The job's three entries are in the document, and its context works. */
  predicate Present(d: Document, j: Job)
    requires Minted(j)
  {
    && d.Top?
    && (forall key :: key in {CLUSTERS, USERS, CONTEXTS} ==>
          SectionItems(d.content, key).Some? && OneEntry(j.incoming.content, key).value in SectionItems(d.content, key).value)
    && ContextResolves(d.content, j.name)
  }

  lemma OwnMergeIsPresent(d: Document, j: Job)
    requires Minted(j) && Readable(d) && MergedDocument(d, j.incoming, j.name).Some?
    ensures Present(MergedDocument(d, j.incoming, j.name).value, j) && Readable(MergedDocument(d, j.incoming, j.name).value)
  {
    hide Called, ContextResolves, Merged, Kept;
    if d == Blank {
      MintedWorks(j);
    } else {
      var c := TopMapping(d).value;
      ContextsStillResolve(c, j.incoming.content, j.name, j.name);
      forall key | key in {CLUSTERS, USERS, CONTEXTS}
        ensures var m := Merged(c, j.incoming.content, j.name).value;
          Paired(m) && SectionItems(m, key).Some? && OneEntry(j.incoming.content, key).value in SectionItems(m, key).value
      {
        OwnEntryIsThere(c, j, key);
      }
      MergedMeans(c, j.incoming.content, j.name, CLUSTERS);
    }
  }

  lemma OwnEntryIsThere(c: seq<Yaml>, j: Job, key: string)
    requires Minted(j) && Paired(c) && Merged(c, j.incoming.content, j.name).Some? && IsSection(key)
    ensures var m := Merged(c, j.incoming.content, j.name).value;
      Paired(m) && SectionItems(m, key).Some? && OneEntry(j.incoming.content, key).value in SectionItems(m, key).value
  {
    hide Called, Merged, Kept, Value, PointsAtItself, Filed, Paired;
    MergedMeans(c, j.incoming.content, j.name, key);
    SectionRead(Merged(c, j.incoming.content, j.name).value, key,
                Kept(SectionItems(c, key).value, j.name) + [OneEntry(j.incoming.content, key).value]);
  }

  lemma OneEntrySection(c: seq<Yaml>, key: string)
    requires OneEntry(c, key).Some?
    ensures SectionItems(c, key) == Some([OneEntry(c, key).value])
  {
    hide Value;
    var items := Value(c, key).value.items;
    assert items == [items[0]];
  }

  lemma MintedWorks(j: Job)
    requires Minted(j)
    ensures Present(j.incoming, j)
  {
    hide Called, Inner, ContextBody;
    var c := j.incoming.content;
    forall key | key in {CLUSTERS, USERS, CONTEXTS}
      ensures SectionItems(c, key).Some? && OneEntry(c, key).value in SectionItems(c, key).value && HasEntry(c, key, j.name)
    {
      OneEntrySection(c, key);
    }
    assert EntryResolves(c, OneEntry(c, CONTEXTS).value);
  }

  /** A merge under another name leaves a job's entries where they are. */
  lemma OtherMergeKeeps(d: Document, j: Job, k: Job)
    requires Minted(j) && Minted(k) && j.name != k.name && Readable(d) && Present(d, j)
    requires MergedDocument(d, k.incoming, k.name).Some?
    ensures Present(MergedDocument(d, k.incoming, k.name).value, j)
  {
    hide Called, ContextResolves, Merged, Kept, PointsAtItself;
    var c := d.content;
    var m := Merged(c, k.incoming.content, k.name).value;
    ContextsStillResolve(c, k.incoming.content, k.name, j.name);
    forall key | key in {CLUSTERS, USERS, CONTEXTS}
      ensures SectionItems(m, key).Some? && OneEntry(j.incoming.content, key).value in SectionItems(m, key).value
    {
      var y := OneEntry(j.incoming.content, key).value;
      MergedMeans(c, k.incoming.content, k.name, key);
      SectionRead(m, key, Kept(SectionItems(c, key).value, k.name) + [OneEntry(k.incoming.content, key).value]);
      KeptMeans(SectionItems(c, key).value, k.name);
      OneName(y, k.name, j.name);
    }
  }

  ghost predicate AllMinted(jobs: seq<Job>) {
    && (forall p :: 0 <= p < |jobs| ==> Minted(jobs[p]))
    && (forall p, q :: 0 <= p < q < |jobs| ==> jobs[p].name != jobs[q].name)
  }

  lemma {:induction false} SerialKeepsAll(jobs: seq<Job>, file: Document, order: seq<nat>)
    requires AllMinted(jobs) && Readable(file) && Known(jobs, order)
    requires forall i, j :: 0 <= i < j < |order| ==> order[i] != order[j]
    requires Serial(jobs, file, order).Some?
    ensures Readable(Serial(jobs, file, order).value)
    ensures forall p :: p in order ==> Present(Serial(jobs, file, order).value, jobs[p])
  {
    hide Minted, Present, MergedDocument, Readable;
    if order != [] {
      var front, last := order[..|order| - 1], order[|order| - 1];
      SerialKeepsAll(jobs, file, front);
      var d := Serial(jobs, file, front).value;
      OwnMergeIsPresent(d, jobs[last]);
      forall p | p in order ensures Present(Serial(jobs, file, order).value, jobs[p]) {
        if p != last {
          assert p in front;
          OtherMergeKeeps(d, jobs[p], jobs[last]);
        }
      }
    }
  }

  /** With names of their own, every process that finished finds its cluster, user and context in the file,
      and the context resolves — whoever else merged, before, after or meanwhile. */
  lemma NoMergeIsLost(jobs: seq<Job>, file: Document, steps: seq<Step>, p: nat)
    requires AllMinted(jobs) && Readable(file) && p < |jobs|
    requires Run(jobs, file, steps).procs[p].Done?
    ensures Present(Run(jobs, file, steps).file, jobs[p])
  {
    hide Present, AllMinted, Readable;
    RunIsSerial(jobs, file, steps);
    SerialKeepsAll(jobs, file, Run(jobs, file, steps).wrote);
  }
}
