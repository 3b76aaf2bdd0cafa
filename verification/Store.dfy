/** The shared store and its output file as values (internal/state/manager.go).

    A call of the Manager locks the mutex, changes a map, and may then write the file in several
    steps that can each fail. `BeginCall` is the locked change; while a write is in progress the
    phase is not Idle and no other call can begin; `WriteStep` is one step of the write. The
    fields from `attempts` on are history: nothing the program does depends on them. */
module Store {
  import opened Collections
  import opened Blueprint

  type PrivateEntries = map<string, PrivateResource>

  /** What a file holds: the rendering of a pair of maps, or anything else. */
  datatype Doc = Document(pub: Entries, priv: PrivateEntries) | Foreign(bytes: string)

  datatype Outcome = Running | Failed | Abandoned | Succeeded(at: int)

  /** One execution of writeState, with the maps it started from. */
  datatype Attempt = Attempt(pub: Entries, priv: PrivateEntries, outcome: Outcome)

  /** Where writeState is. The rendered data is a local of writeState, hence part of the phase. */
  datatype Phase = Idle | Marshalling | WritingTemp(data: Doc) | Renaming | CleaningUp

  datatype Store = Store(
    pub: Entries,
    priv: PrivateEntries,
    lastWriteErr: bool,
    lastWriteTime: Option<int>,
    phase: Phase,
    output: Option<Doc>,
    tmp: Option<Doc>,
    attempts: seq<Attempt>,  // every writeState so far, over all lifetimes of the process
    born: nat,               // how many of them were made by earlier lifetimes
    unsaved: bool)           // a map changed without a write since the last successful one

  function Start(output: Option<Doc>, tmp: Option<Doc>): Store {
    Store(map[], map[], false, None, Idle, output, tmp, [], 0, false)
  }

  // ----- the calls -----

  datatype Call =
    | Put(key: string, resource: Resource, write: bool)
    | Remove(key: string)
    | PutPrivate(key: string, private: PrivateResource, write: bool)
    | RemovePrivate(key: string)
    | ForceWrite

  predicate IsPublic(c: Call) {
    c.Put? || c.Remove?
  }

  predicate IsPrivate(c: Call) {
    c.PutPrivate? || c.RemovePrivate?
  }

  function PubAfter(c: Call, pub: Entries): Entries {
    match c
    case Put(k, r, _) => pub[k := r]
    case Remove(k) => pub - {k}
    case _ => pub
  }

  function PrivAfter(c: Call, priv: PrivateEntries): PrivateEntries {
    match c
    case PutPrivate(k, p, _) => priv[k := p]
    case RemovePrivate(k) => priv - {k}
    case _ => priv
  }

  /** Does the call change a map? This is also the bool that the Manager's methods return. */
  predicate Effective(c: Call, s: Store) {
    match c
    case Put(k, r, _) => Lookup(s.pub, k) != Some(r)
    case Remove(k) => k in s.pub
    case PutPrivate(k, p, _) => Lookup(s.priv, k) != Some(p)
    case RemovePrivate(k) => k in s.priv
    case ForceWrite => false
  }

  predicate Writes(c: Call, s: Store) {
    c.ForceWrite? || (Effective(c, s) && ((c.Put? || c.PutPrivate?) ==> c.write))
  }

  function BeginCall(c: Call, s: Store): Store {
    var pub, priv := PubAfter(c, s.pub), PrivAfter(c, s.priv);
    if Writes(c, s) then
      s.(pub := pub, priv := priv, phase := Marshalling, attempts := s.attempts + [Attempt(pub, priv, Running)])
    else
      s.(pub := pub, priv := priv, unsaved := s.unsaved || Effective(c, s))
  }

  /** A call that changes nothing and does not force a write leaves the whole store alone. */
  lemma IneffectiveCall(c: Call, s: Store)
    requires !Effective(c, s) && !c.ForceWrite?
    ensures BeginCall(c, s) == s
  {
    match c
    case Put(k, r, _) => assert s.pub[k := r] == s.pub;
    case Remove(k) => assert s.pub - {k} == s.pub;
    case PutPrivate(k, p, _) => assert s.priv[k := p] == s.priv;
    case RemovePrivate(k) => assert s.priv - {k} == s.priv;
  }

  // ----- the steps of writeState -----

  datatype WriteStep =
    | MarshalOk
    | MarshalFail
    | TempChunk(bytes: string)  // the temporary file holds part of the data
    | TempOk
    | TempFail
    | RenameOk(now: int)
    | RenameFail
    | Cleanup(removed: bool)

  predicate CanWrite(m: WriteStep, s: Store) {
    match m
    case MarshalOk | MarshalFail => s.phase.Marshalling?
    case TempChunk(_) | TempOk | TempFail => s.phase.WritingTemp?
    case RenameOk(_) => s.phase.Renaming? && s.tmp.Some?
    case RenameFail => s.phase.Renaming?
    case Cleanup(_) => s.phase.CleaningUp?
  }

  function Mark(attempts: seq<Attempt>, o: Outcome): (marked: seq<Attempt>)
    requires attempts != []
  {
    attempts[..|attempts| - 1] + [attempts[|attempts| - 1].(outcome := o)]
  }

  function GiveUp(s: Store): Store {
    s.(phase := Idle, lastWriteErr := true, attempts := if s.attempts == [] then [] else Mark(s.attempts, Failed))
  }

  function Write(m: WriteStep, s: Store): Store
    requires CanWrite(m, s)
  {
    match m
    case MarshalOk => s.(phase := WritingTemp(Document(s.pub, s.priv)))
    case MarshalFail => GiveUp(s)
    case TempChunk(bytes) => s.(tmp := Some(Foreign(bytes)))
    case TempOk => s.(tmp := Some(s.phase.data), phase := Renaming)
    case TempFail => GiveUp(s)
    case RenameOk(now) =>
      s.(output := s.tmp, tmp := None, phase := Idle, lastWriteErr := false, lastWriteTime := Some(now),
         attempts := if s.attempts == [] then [] else Mark(s.attempts, Succeeded(now)), unsaved := false)
    case RenameFail => s.(phase := CleaningUp)
    case Cleanup(removed) => GiveUp(s).(tmp := if removed then None else s.tmp)
  }

  lemma WriteMaps(m: WriteStep, s: Store)
    requires CanWrite(m, s)
    ensures Write(m, s).pub == s.pub && Write(m, s).priv == s.priv
  {
  }

  /** The process dies and starts again: the files stay, everything else is lost. */
  function Crash(s: Store): Store {
    var attempts := if s.phase.Idle? || s.attempts == [] then s.attempts else Mark(s.attempts, Abandoned);
    Start(s.output, s.tmp).(attempts := attempts, born := |attempts|)
  }

  // ----- whole calls -----

  /** How a write ends. `left` is what a failed write of the temporary file leaves there. */
  datatype Result = MarshalError | TempError(left: Option<Doc>) | RenameError(removed: bool) | Written(now: int)

  predicate Possible(r: Result, s: Store) {
    r.TempError? ==> r.left == s.tmp || (r.left.Some? && r.left.value.Foreign?)
  }

  function FinishWrite(r: Result, s: Store): Store
    requires s.phase.Marshalling?
  {
    match r
    case MarshalError => GiveUp(s)
    case TempError(left) => GiveUp(s).(tmp := left)
    case RenameError(removed) => GiveUp(s).(tmp := if removed then None else Some(Document(s.pub, s.priv)))
    case Written(now) =>
      s.(output := Some(Document(s.pub, s.priv)), tmp := None, phase := Idle, lastWriteErr := false,
         lastWriteTime := Some(now), attempts := if s.attempts == [] then [] else Mark(s.attempts, Succeeded(now)),
         unsaved := false)
  }

  /** A whole call, mutex locked to mutex unlocked; `r` matters only when the call writes. */
  function RunCall(c: Call, r: Result, s: Store): Store {
    var begun := BeginCall(c, s);
    if begun.phase.Marshalling? then FinishWrite(r, begun) else begun
  }

  lemma FinishWriteMaps(r: Result, s: Store)
    requires s.phase.Marshalling?
    ensures FinishWrite(r, s).pub == s.pub && FinishWrite(r, s).priv == s.priv
  {
  }

  /** However its write ends, a call changes the maps in the same way. */
  lemma RunCallMaps(c: Call, r: Result, s: Store)
    ensures RunCall(c, r, s).pub == PubAfter(c, s.pub)
    ensures RunCall(c, r, s).priv == PrivAfter(c, s.priv)
  {
    var begun := BeginCall(c, s);
    if begun.phase.Marshalling? {
      FinishWriteMaps(r, begun);
    }
  }

  lemma FinishWriteAttempts(r: Result, s: Store)
    requires s.phase.Marshalling? && s.attempts != []
    ensures |FinishWrite(r, s).attempts| == |s.attempts|
  {
  }

  lemma ChangeIsEffective(c: Call, s: Store)
    ensures Effective(c, s) <==> PubAfter(c, s.pub) != s.pub || PrivAfter(c, s.priv) != s.priv
  {
    if !Effective(c, s) && !c.ForceWrite? {
      IneffectiveCall(c, s);
      assert BeginCall(c, s).pub == s.pub && BeginCall(c, s).priv == s.priv;
    }
    match c
    case Put(k, r, _) => assert s.pub[k := r][k] == r;
    case PutPrivate(k, p, _) => assert s.priv[k := p][k] == p;
    case _ =>
  }

  /** A call that changes no map, unless it forces a write, leaves everything as it was; one that changes
      a map and may write makes one attempt to. */
  lemma RunCallOutcome(c: Call, r: Result, s: Store)
    requires s.phase.Idle? && !c.ForceWrite? && ((c.Put? || c.PutPrivate?) ==> c.write)
    ensures var s' := RunCall(c, r, s);
      && s'.pub == PubAfter(c, s.pub) && s'.priv == PrivAfter(c, s.priv)
      && (s'.pub == s.pub && s'.priv == s.priv ==> s' == s)
      && (s'.pub != s.pub || s'.priv != s.priv ==> |s'.attempts| == |s.attempts| + 1)
  {
    RunCallMaps(c, r, s);
    ChangeIsEffective(c, s);
    if Effective(c, s) {
      FinishWriteAttempts(r, BeginCall(c, s));
    } else {
      IneffectiveCall(c, s);
    }
  }

  lemma ForceWriteOutcome(r: Result, s: Store)
    ensures var s' := RunCall(ForceWrite, r, s);
      s'.pub == s.pub && s'.priv == s.priv && |s'.attempts| == |s.attempts| + 1
  {
    RunCallMaps(ForceWrite, r, s);
    FinishWriteAttempts(r, BeginCall(ForceWrite, s));
  }

  ghost predicate CanRun(ms: seq<WriteStep>, s: Store)
    decreases |ms|
  {
    ms != [] ==> CanWrite(ms[0], s) && CanRun(ms[1..], Write(ms[0], s))
  }

  ghost function Run(ms: seq<WriteStep>, s: Store): Store
    requires CanRun(ms, s)
    decreases |ms|
  {
    if ms == [] then s else Run(ms[1..], Write(ms[0], s))
  }

  ghost function StepsOf(r: Result, s: Store): seq<WriteStep> {
    match r
    case MarshalError => [MarshalFail]
    case TempError(left) =>
      if left != s.tmp && left.Some? && left.value.Foreign? then [MarshalOk, TempChunk(left.value.bytes), TempFail]
      else [MarshalOk, TempFail]
    case RenameError(removed) => [MarshalOk, TempOk, RenameFail, Cleanup(removed)]
    case Written(now) => [MarshalOk, TempOk, RenameOk(now)]
  }

  lemma RunCons(m: WriteStep, rest: seq<WriteStep>, s: Store)
    requires CanWrite(m, s) && CanRun(rest, Write(m, s))
    ensures CanRun([m] + rest, s) && Run([m] + rest, s) == Run(rest, Write(m, s))
  {
    var ms := [m] + rest;
    assert ms[0] == m && ms[1..] == rest;
  }

  lemma RunOne(m: WriteStep, s: Store)
    requires CanWrite(m, s)
    ensures CanRun([m], s) && Run([m], s) == Write(m, s)
  {
    RunCons(m, [], s);
    assert [m] + [] == [m];
  }

  lemma RunTwo(m: WriteStep, n: WriteStep, s: Store)
    requires CanWrite(m, s) && CanWrite(n, Write(m, s))
    ensures CanRun([m, n], s) && Run([m, n], s) == Write(n, Write(m, s))
  {
    RunOne(n, Write(m, s));
    RunCons(m, [n], s);
    assert [m] + [n] == [m, n];
  }

  /** Every way a whole call can end is reached by single steps ... */
  lemma ResultsAreReachable(r: Result, s: Store)
    requires s.phase.Marshalling? && Possible(r, s)
    ensures CanRun(StepsOf(r, s), s) && Run(StepsOf(r, s), s) == FinishWrite(r, s)
  {
    var data := Write(MarshalOk, s);
    var ms := StepsOf(r, s);
    match r
    case MarshalError =>
      RunOne(MarshalFail, s);
    case TempError(left) =>
      if |ms| == 3 {
        RunTwo(TempChunk(left.value.bytes), TempFail, data);
        RunCons(MarshalOk, [TempChunk(left.value.bytes), TempFail], s);
        assert [MarshalOk] + [TempChunk(left.value.bytes), TempFail] == ms;
      } else {
        RunTwo(MarshalOk, TempFail, s);
      }
    case RenameError(removed) =>
      var ready := Write(TempOk, data);
      RunTwo(RenameFail, Cleanup(removed), ready);
      RunCons(TempOk, [RenameFail, Cleanup(removed)], data);
      RunCons(MarshalOk, [TempOk] + [RenameFail, Cleanup(removed)], s);
      assert [MarshalOk] + ([TempOk] + [RenameFail, Cleanup(removed)]) == ms;
    case Written(now) =>
      RunTwo(TempOk, RenameOk(now), data);
      RunCons(MarshalOk, [TempOk, RenameOk(now)], s);
      assert [MarshalOk] + [TempOk, RenameOk(now)] == ms;
  }

  /** ... and single steps that bring the store back to Idle always amount to one of those ends. */
  lemma {:induction false} RunsAmountToResults(ms: seq<WriteStep>, s: Store) returns (r: Result)
    requires s.phase.Marshalling?
    requires CanRun(ms, s) && Run(ms, s).phase.Idle?
    ensures Possible(r, s) && Run(ms, s) == FinishWrite(r, s)
  {
    if ms[0].MarshalFail? {
      r := MarshalError;
      NothingAfterIdle(ms[1..], Write(ms[0], s));
    } else {
      r := TempRuns(ms[1..], Write(ms[0], s), s);
    }
  }

  lemma {:induction false} NothingAfterIdle(ms: seq<WriteStep>, s: Store)
    requires s.phase.Idle? && CanRun(ms, s)
    ensures Run(ms, s) == s
  {
  }

  lemma {:induction false} TempRuns(ms: seq<WriteStep>, s: Store, s0: Store) returns (r: Result)
    requires s0.phase.Marshalling?
    requires s == s0.(tmp := s.tmp, phase := WritingTemp(Document(s0.pub, s0.priv)))
    requires Possible(TempError(s.tmp), s0)
    requires CanRun(ms, s) && Run(ms, s).phase.Idle?
    ensures Possible(r, s0) && Run(ms, s) == FinishWrite(r, s0)
    decreases |ms|
  {
    var next := Write(ms[0], s);
    match ms[0]
    case TempChunk(_) =>
      r := TempRuns(ms[1..], next, s0);
    case TempFail =>
      r := TempError(s.tmp);
      NothingAfterIdle(ms[1..], next);
    case TempOk =>
      r := RenameRuns(ms[1..], next, s0);
  }

  lemma {:induction false} RenameRuns(ms: seq<WriteStep>, s: Store, s0: Store) returns (r: Result)
    requires s0.phase.Marshalling?
    requires s == s0.(tmp := Some(Document(s0.pub, s0.priv)), phase := Renaming)
    requires CanRun(ms, s) && Run(ms, s).phase.Idle?
    ensures Possible(r, s0) && Run(ms, s) == FinishWrite(r, s0)
  {
    var next, rest := Write(ms[0], s), ms[1..];
    assert CanRun(rest, next) && Run(rest, next) == Run(ms, s);
    if ms[0].RenameOk? {
      r := Written(ms[0].now);
      NothingAfterIdle(rest, next);
    } else {
      r := RenameError(rest[0].removed);
      NothingAfterIdle(rest[1..], Write(rest[0], next));
    }
  }

  lemma {:induction false} RunOk(ms: seq<WriteStep>, s: Store, initial: Option<Doc>)
    requires StoreOk(s, initial) && CanRun(ms, s)
    ensures StoreOk(Run(ms, s), initial)
  {
    if ms != [] {
      WriteOk(ms[0], s, initial);
      RunOk(ms[1..], Write(ms[0], s), initial);
    }
  }

  /** A whole call keeps everything that its single steps keep. */
  lemma RunCallOk(c: Call, r: Result, s: Store, initial: Option<Doc>)
    requires StoreOk(s, initial) && s.phase.Idle? && Possible(r, s)
    ensures StoreOk(RunCall(c, r, s), initial) && RunCall(c, r, s).phase.Idle?
  {
    var begun := BeginCall(c, s);
    BeginCallOk(c, s, initial);
    if begun.phase.Marshalling? {
      ResultsAreReachable(r, begun);
      RunOk(StepsOf(r, begun), begun, initial);
    }
  }

  // ----- health -----

  function Healthy(s: Store, now: int, threshold: int): bool {
    if s.lastWriteErr then false
    else if s.lastWriteTime.None? then true
    else now - s.lastWriteTime.value <= threshold
  }

  // ----- what every step keeps -----

  function LastAttempt(s: Store): Attempt
    requires s.attempts != []
  {
    s.attempts[|s.attempts| - 1]
  }

  /** The number of the attempt whose document is in the output file, -1 for none. */
  function OutputIndex(attempts: seq<Attempt>): (i: int)
    ensures -1 <= i < |attempts|
    ensures i >= 0 ==> attempts[i].outcome.Succeeded?
    ensures forall j :: i < j < |attempts| ==> !attempts[j].outcome.Succeeded?
  {
    if attempts == [] then -1
    else if attempts[|attempts| - 1].outcome.Succeeded? then |attempts| - 1
    else OutputIndex(attempts[..|attempts| - 1])
  }

  function OutputOf(attempts: seq<Attempt>, initial: Option<Doc>): Option<Doc> {
    var i := OutputIndex(attempts);
    if i < 0 then initial else Some(Document(attempts[i].pub, attempts[i].priv))
  }

  predicate Tried(s: Store) {
    |s.attempts| > s.born
  }

  ghost predicate AttemptsOk(s: Store) {
    && s.born <= |s.attempts|
    && (forall i :: 0 <= i < |s.attempts| && s.attempts[i].outcome.Running? ==> i == |s.attempts| - 1 && !s.phase.Idle?)
    && (forall i :: s.born <= i < |s.attempts| ==> !s.attempts[i].outcome.Abandoned?)
    && (!s.phase.Idle? ==> Tried(s) && LastAttempt(s) == Attempt(s.pub, s.priv, Running))
  }

  ghost predicate FilesOk(s: Store, initial: Option<Doc>) {
    && s.output == OutputOf(s.attempts, initial)
    && (s.phase.WritingTemp? ==> s.phase.data == Document(s.pub, s.priv))
    && (s.phase.Renaming? ==> s.tmp == Some(Document(s.pub, s.priv)))
  }

  ghost predicate StatusOk(s: Store) {
    s.phase.Idle? ==>
      && (!Tried(s) ==> !s.lastWriteErr && s.lastWriteTime.None?)
      && (Tried(s) ==>
            && s.lastWriteErr == LastAttempt(s).outcome.Failed?
            && (LastAttempt(s).outcome.Succeeded? ==> s.lastWriteTime == Some(LastAttempt(s).outcome.at)))
  }

  ghost predicate SavedOk(s: Store) {
    Tried(s) && !s.unsaved ==> LastAttempt(s).pub == s.pub && LastAttempt(s).priv == s.priv
  }

  ghost predicate StoreOk(s: Store, initial: Option<Doc>) {
    AttemptsOk(s) && FilesOk(s, initial) && StatusOk(s) && SavedOk(s)
  }

  lemma StartOk(output: Option<Doc>, tmp: Option<Doc>)
    ensures StoreOk(Start(output, tmp), output)
  {
  }

  lemma MarkKeepsOutput(attempts: seq<Attempt>, o: Outcome)
    requires attempts != [] && attempts[|attempts| - 1].outcome.Running?
    ensures OutputIndex(Mark(attempts, o)) == if o.Succeeded? then |attempts| - 1 else OutputIndex(attempts)
  {
    var marked := Mark(attempts, o);
    assert marked[..|marked| - 1] == attempts[..|attempts| - 1];
  }

  lemma BeginCallOk(c: Call, s: Store, initial: Option<Doc>)
    requires StoreOk(s, initial) && s.phase.Idle?
    ensures StoreOk(BeginCall(c, s), initial)
  {
    var s' := BeginCall(c, s);
    if Writes(c, s) {
      assert s'.attempts[..|s'.attempts| - 1] == s.attempts;
    } else if !Effective(c, s) {
      IneffectiveCall(c, s);
    }
  }

  lemma GiveUpOk(s: Store, initial: Option<Doc>)
    requires StoreOk(s, initial) && !s.phase.Idle?
    ensures StoreOk(GiveUp(s), initial)
  {
    MarkKeepsOutput(s.attempts, Failed);
  }

  lemma RenamedOk(s: Store, initial: Option<Doc>, now: int)
    requires StoreOk(s, initial) && CanWrite(RenameOk(now), s)
    ensures StoreOk(Write(RenameOk(now), s), initial)
  {
    MarkKeepsOutput(s.attempts, Succeeded(now));
  }

  lemma WriteOk(m: WriteStep, s: Store, initial: Option<Doc>)
    requires StoreOk(s, initial) && CanWrite(m, s)
    ensures StoreOk(Write(m, s), initial)
  {
    if m.MarshalFail? || m.TempFail? || m.Cleanup? {
      GiveUpOk(s, initial);
    } else if m.RenameOk? {
      RenamedOk(s, initial, m.now);
    }
  }

  lemma CrashOk(s: Store, initial: Option<Doc>)
    requires StoreOk(s, initial)
    ensures StoreOk(Crash(s), initial)
  {
    if !s.phase.Idle? {
      MarkKeepsOutput(s.attempts, Abandoned);
    }
  }

  /** The health check tells the truth about the past: it is positive exactly when this process has
      not tried to write yet, or its most recent try succeeded no longer than the threshold ago; and
      in the second case the file holds what that try set out to write. */
  lemma HealthReflectsHistory(s: Store, initial: Option<Doc>, now: int, threshold: int)
    requires StoreOk(s, initial) && s.phase.Idle?
    ensures Healthy(s, now, threshold)
       <==> !Tried(s) || (LastAttempt(s).outcome.Succeeded? && now - LastAttempt(s).outcome.at <= threshold)
    ensures Tried(s) && Healthy(s, now, threshold) ==>
      s.output == Some(Document(LastAttempt(s).pub, LastAttempt(s).priv))
  {
  }

  /** Between calls, once this process has tried to write, the file agrees with both maps unless
      the last try failed or something was changed without a write since the last success. */
  lemma FileAgreesUnless(s: Store, initial: Option<Doc>)
    requires StoreOk(s, initial) && s.phase.Idle? && Tried(s)
    ensures s.output == Some(Document(s.pub, s.priv)) || LastAttempt(s).outcome.Failed? || s.unsaved
  {
  }
}
