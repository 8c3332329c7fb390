/** The puzzles that the API server has handed out: each supports one attempt, and so at most one creation. */
module PuzzleStore {
  import opened Common
  import opened Time
  import opened ProofOfWork

  datatype Puzzle = Puzzle(challenge: string, difficulty: int, expiresAt: int)

  const PUZZLE_LIFETIME: int := 300 * SECOND

  predicate Solves(hash: Hash, p: Puzzle, nonce: nat, now: int) {
    now <= p.expiresAt && VerifyPoW(hash, p.challenge, nonce, p.difficulty)
  }

  // ----- Concurrent handlers

  /** Where a request stands. A serial number says which issue of a puzzle the request got hold of. */
  datatype Handler =
    | Ended
    | Generated(p: Puzzle)                  // puzzle made, not yet stored
    | Asking(challenge: string, nonce: nat) // create request, about to take the lock
    | Holding(p: Puzzle, serial: nat, nonce: nat) // puzzle taken, not yet verified
    | Admitted(serial: nat)                 // passed the gate, about to create

  datatype Admission = Admission(serial: nat, nonce: nat, at: int)

  /** A stored puzzle, and which issue it is. */
  datatype Entry = Entry(p: Puzzle, serial: nat)

  datatype State = State(
    clock: int,
    puzzles: map<string, Entry>,
    issued: seq<Puzzle>,            // storePoW calls, in order
    lookups: seq<string>,           // lookups that obtained a puzzle, in order
    handlers: seq<Handler>,
    admissions: seq<Admission>,     // requests that passed the gate
    creations: seq<nat>)            // serials of the gated requests that created an instance

  datatype Step =
    | Tick(d: nat)
    | Generate(challenge: string, difficulty: int)
    | Store(i: nat)
    | Ask(challenge: string, nonce: nat)
    | LookUp(i: nat)
    | Check(i: nat)
    | Create(i: nat)
    | Quit(i: nat)

  ghost predicate Init(s: State) {
    && s.puzzles == map[] && s.issued == [] && s.lookups == [] && s.handlers == []
    && s.admissions == [] && s.creations == []
  }

  ghost predicate At(s: State, i: nat) {
    i < |s.handlers|
  }

  ghost predicate Enabled(s: State, step: Step) {
    match step
    case Tick(_) => true
    case Generate(_, _) => true
    case Store(i) => At(s, i) && s.handlers[i].Generated?
    case Ask(_, _) => true
    case LookUp(i) => At(s, i) && s.handlers[i].Asking?
    case Check(i) => At(s, i) && s.handlers[i].Holding?
    case Create(i) => At(s, i) && s.handlers[i].Admitted?
    case Quit(i) => At(s, i)
  }

  ghost function Apply(hash: Hash, s: State, step: Step): State
    requires Enabled(s, step)
  {
    match step
    case Tick(d) => s.(clock := s.clock + d)
    case Generate(challenge, difficulty) =>
      s.(handlers := s.handlers + [Generated(Puzzle(challenge, difficulty, s.clock + PUZZLE_LIFETIME))])
    case Store(i) =>
      var p := s.handlers[i].p;
      s.(puzzles := s.puzzles[p.challenge := Entry(p, |s.issued|)],
         issued := s.issued + [p],
         handlers := s.handlers[i := Ended])
    case Ask(challenge, nonce) => s.(handlers := s.handlers + [Asking(challenge, nonce)])
    case LookUp(i) =>
      var c := s.handlers[i].challenge;
      if c in s.puzzles then
        s.(puzzles := s.puzzles - {c},
           lookups := s.lookups + [c],
           handlers := s.handlers[i := Holding(s.puzzles[c].p, s.puzzles[c].serial, s.handlers[i].nonce)])
      else s.(handlers := s.handlers[i := Ended])
    case Check(i) =>
      var x := s.handlers[i];
      if Solves(hash, x.p, x.nonce, s.clock) then
        s.(handlers := s.handlers[i := Admitted(x.serial)],
           admissions := s.admissions + [Admission(x.serial, x.nonce, s.clock)])
      else s.(handlers := s.handlers[i := Ended])
    case Create(i) =>
      s.(handlers := s.handlers[i := Ended], creations := s.creations + [s.handlers[i].serial])
    case Quit(i) => s.(handlers := s.handlers[i := Ended])
  }

  ghost predicate Next(hash: Hash, s: State, t: State) {
    exists step :: Enabled(s, step) && t == Apply(hash, s, step)
  }

  ghost predicate Run(hash: Hash, run: seq<State>) {
    && run != [] && Init(run[0])
    && forall k :: 0 < k < |run| ==> Next(hash, run[k - 1], run[k])
  }

  // ----- Invariants

  /** Stored entries point back to the issue they came from. */
  ghost predicate StoreOk(s: State) {
    forall c <- s.puzzles ::
      && s.puzzles[c].serial < |s.issued|
      && s.issued[s.puzzles[c].serial] == s.puzzles[c].p
      && s.puzzles[c].p.challenge == c
  }

  ghost predicate Has(x: Handler, serial: nat) {
    (x.Holding? || x.Admitted?) && x.serial == serial
  }

  ghost predicate Stored(s: State, serial: nat) {
    exists c :: c in s.puzzles && s.puzzles[c].serial == serial
  }

  ghost predicate HasBeenAdmitted(s: State, serial: nat) {
    exists k :: 0 <= k < |s.admissions| && s.admissions[k].serial == serial
  }

  ghost predicate HasCreated(s: State, serial: nat) {
    serial in s.creations
  }

  /** What a handler holds is an issued puzzle that is out of the store, and no other handler's. */
  ghost predicate HandlersOk(s: State) {
    && (forall i :: 0 <= i < |s.handlers| && (s.handlers[i].Holding? || s.handlers[i].Admitted?) ==>
          s.handlers[i].serial < |s.issued| && !Stored(s, s.handlers[i].serial))
    && (forall i :: 0 <= i < |s.handlers| && s.handlers[i].Holding? ==>
          s.handlers[i].p == s.issued[s.handlers[i].serial] && !HasBeenAdmitted(s, s.handlers[i].serial))
    && (forall i :: 0 <= i < |s.handlers| && s.handlers[i].Admitted? ==>
          HasBeenAdmitted(s, s.handlers[i].serial) && !HasCreated(s, s.handlers[i].serial))
    && (forall i, j :: 0 <= i < j < |s.handlers| && (s.handlers[i].Holding? || s.handlers[i].Admitted?) ==>
          !Has(s.handlers[j], s.handlers[i].serial))
  }

  /** The admission is of an issued puzzle, solved in time at the difficulty it was issued with. */
  ghost predicate Earned(hash: Hash, s: State, a: Admission) {
    && a.serial < |s.issued| && a.at <= s.clock
    && var p := s.issued[a.serial];
       a.at <= p.expiresAt && VerifyPoW(hash, p.challenge, a.nonce, p.difficulty)
  }

  /** Admissions are of distinct issued puzzles, each solved in time at its own difficulty. */
  ghost predicate AdmissionsOk(hash: Hash, s: State) {
    && (forall k :: 0 <= k < |s.admissions| ==> Earned(hash, s, s.admissions[k]) && !Stored(s, s.admissions[k].serial))
    && (forall j, k :: 0 <= j < k < |s.admissions| ==> s.admissions[j].serial != s.admissions[k].serial)
  }

  ghost predicate CreationsOk(s: State) {
    && (forall k :: 0 <= k < |s.creations| ==> HasBeenAdmitted(s, s.creations[k]))
    && (forall j, k :: 0 <= j < k < |s.creations| ==> s.creations[j] != s.creations[k])
  }

  ghost predicate Inv(hash: Hash, s: State) {
    StoreOk(s) && HandlersOk(s) && AdmissionsOk(hash, s) && CreationsOk(s)
  }

  lemma StepInv(hash: Hash, s: State, step: Step)
    requires Inv(hash, s) && Enabled(s, step)
    ensures Inv(hash, Apply(hash, s, step))
  {
    hide Inv;
    hide Apply;
    match step
    case Store(i) => StoreInv(hash, s, i);
    case LookUp(i) => LookUpInv(hash, s, i);
    case Check(i) => CheckInv(hash, s, i);
    case Create(i) => CreateInv(hash, s, i);
    case _ => QuietInv(hash, s, step);
  }

  lemma QuietInv(hash: Hash, s: State, step: Step)
    requires Inv(hash, s) && Enabled(s, step)
    requires step.Tick? || step.Generate? || step.Ask? || step.Quit?
    ensures Inv(hash, Apply(hash, s, step))
  {}

  lemma StoreInv(hash: Hash, s: State, i: nat)
    requires Inv(hash, s) && Enabled(s, Store(i))
    ensures Inv(hash, Apply(hash, s, Store(i)))
  {}

  lemma LookUpKeepsStore(hash: Hash, s: State, i: nat)
    requires StoreOk(s) && Enabled(s, LookUp(i))
    ensures var t := Apply(hash, s, LookUp(i));
            && StoreOk(t)
            && (forall serial :: Stored(t, serial) ==> Stored(s, serial))
  {}

  lemma LookUpKeepsHandlers(hash: Hash, s: State, i: nat)
    requires StoreOk(s) && HandlersOk(s) && AdmissionsOk(hash, s) && Enabled(s, LookUp(i))
    requires forall serial :: Stored(Apply(hash, s, LookUp(i)), serial) ==> Stored(s, serial)
    ensures HandlersOk(Apply(hash, s, LookUp(i)))
  {
    var t := Apply(hash, s, LookUp(i));
    hide Earned;
    if s.handlers[i].challenge in s.puzzles {
      assert Stored(s, t.handlers[i].serial);
      TakenIsGone(hash, s, i);
    }
    hide Stored;
  }

  /** Two stored puzzles are never the same issue. */
  lemma TakenIsGone(hash: Hash, s: State, i: nat)
    requires StoreOk(s) && Enabled(s, LookUp(i)) && s.handlers[i].challenge in s.puzzles
    ensures !Stored(Apply(hash, s, LookUp(i)), s.puzzles[s.handlers[i].challenge].serial)
  {}

  lemma LookUpKeepsRecords(hash: Hash, s: State, i: nat)
    requires AdmissionsOk(hash, s) && CreationsOk(s) && Enabled(s, LookUp(i))
    requires forall serial :: Stored(Apply(hash, s, LookUp(i)), serial) ==> Stored(s, serial)
    ensures AdmissionsOk(hash, Apply(hash, s, LookUp(i))) && CreationsOk(Apply(hash, s, LookUp(i)))
  {
    hide Stored;
    hide Solves;
  }

  lemma LookUpInv(hash: Hash, s: State, i: nat)
    requires Inv(hash, s) && Enabled(s, LookUp(i))
    ensures Inv(hash, Apply(hash, s, LookUp(i)))
  {
    hide Apply;
    hide StoreOk;
    hide HandlersOk;
    hide AdmissionsOk;
    hide CreationsOk;
    LookUpKeepsStore(hash, s, i);
    LookUpKeepsHandlers(hash, s, i);
    LookUpKeepsRecords(hash, s, i);
  }

  lemma AdmittedByCheck(hash: Hash, s: State, i: nat, serial: nat)
    requires Enabled(s, Check(i))
    ensures var t := Apply(hash, s, Check(i));
            HasBeenAdmitted(t, serial) <==>
              HasBeenAdmitted(s, serial) || (t.admissions != s.admissions && serial == s.handlers[i].serial)
  {
    var t := Apply(hash, s, Check(i));
    var n := |s.admissions|;
    if t.admissions != s.admissions && serial == s.handlers[i].serial {
      assert t.admissions[n].serial == serial;
    }
    if HasBeenAdmitted(s, serial) {
      var k :| 0 <= k < n && s.admissions[k].serial == serial;
      assert t.admissions[k].serial == serial;
    }
  }

  /** A check changes which serials have been admitted by at most its own. */
  ghost predicate AdmitsAtMost(s: State, t: State, serial: nat) {
    forall x: nat :: HasBeenAdmitted(t, x) <==> HasBeenAdmitted(s, x) || (t.admissions != s.admissions && x == serial)
  }

  lemma CheckKeepsHandlers(hash: Hash, s: State, i: nat)
    requires HandlersOk(s) && CreationsOk(s) && Enabled(s, Check(i))
    requires AdmitsAtMost(s, Apply(hash, s, Check(i)), s.handlers[i].serial)
    ensures HandlersOk(Apply(hash, s, Check(i))) && CreationsOk(Apply(hash, s, Check(i)))
  {
    hide HasBeenAdmitted;
    hide Solves;
  }

  lemma CheckKeepsAdmissions(hash: Hash, s: State, i: nat)
    requires HandlersOk(s) && AdmissionsOk(hash, s) && StoreOk(s) && Enabled(s, Check(i))
    ensures AdmissionsOk(hash, Apply(hash, s, Check(i))) && StoreOk(Apply(hash, s, Check(i)))
  {
    assert forall k :: 0 <= k < |s.admissions| ==> HasBeenAdmitted(s, s.admissions[k].serial);
  }

  lemma CheckInv(hash: Hash, s: State, i: nat)
    requires Inv(hash, s) && Enabled(s, Check(i))
    ensures Inv(hash, Apply(hash, s, Check(i)))
  {
    hide Apply;
    hide HandlersOk;
    hide AdmissionsOk;
    hide CreationsOk;
    var t := Apply(hash, s, Check(i));
    forall x: nat
      ensures HasBeenAdmitted(t, x) <==>
                HasBeenAdmitted(s, x) || (t.admissions != s.admissions && x == s.handlers[i].serial)
    {
      AdmittedByCheck(hash, s, i, x);
    }
    CheckKeepsHandlers(hash, s, i);
    CheckKeepsAdmissions(hash, s, i);
  }

  lemma CreateInv(hash: Hash, s: State, i: nat)
    requires Inv(hash, s) && Enabled(s, Create(i))
    ensures Inv(hash, Apply(hash, s, Create(i)))
  {}

  lemma {:induction false} RunInv(hash: Hash, run: seq<State>, k: nat)
    requires Run(hash, run) && k < |run|
    ensures Inv(hash, run[k])
  {
    if k > 0 {
      RunInv(hash, run, k - 1);
      assert Next(hash, run[k - 1], run[k]);
      var step :| Enabled(run[k - 1], step) && run[k] == Apply(hash, run[k - 1], step);
      StepInv(hash, run[k - 1], step);
    }
  }

  /** Some admission, of the issue with this serial number, was earned. */
  ghost predicate Backed(hash: Hash, s: State, serial: nat) {
    exists k :: 0 <= k < |s.admissions| && s.admissions[k].serial == serial && Earned(hash, s, s.admissions[k])
  }

  lemma CreationIsBacked(hash: Hash, s: State, i: nat)
    requires AdmissionsOk(hash, s) && CreationsOk(s) && i < |s.creations|
    ensures Backed(hash, s, s.creations[i])
  {
    hide Earned;
    assert HasBeenAdmitted(s, s.creations[i]);
    var k :| 0 <= k < |s.admissions| && s.admissions[k].serial == s.creations[i];
    assert Earned(hash, s, s.admissions[k]);
  }

  /**
   In every state of every run: each creation that passed the gate goes with an admission of its own, and so with
   an issued puzzle of its own, which was still valid and was solved at the difficulty it was issued with.
   */
  lemma CreationsUseDistinctPuzzles(hash: Hash, run: seq<State>, k: nat)
    requires Run(hash, run) && k < |run|
    ensures forall i, j :: 0 <= i < j < |run[k].creations| ==> run[k].creations[i] != run[k].creations[j]
    ensures forall i :: 0 <= i < |run[k].creations| ==> Backed(hash, run[k], run[k].creations[i])
  {
    RunInv(hash, run, k);
    forall i | 0 <= i < |run[k].creations| ensures Backed(hash, run[k], run[k].creations[i]) {
      CreationIsBacked(hash, run[k], i);
    }
  }

  // ----- Counting, challenge by challenge

  /** The challenge strings of the puzzles issued, with repetitions. */
  function Challenges(issued: seq<Puzzle>): multiset<string> {
    if issued == [] then multiset{}
    else Challenges(issued[..|issued| - 1]) + multiset{issued[|issued| - 1].challenge}
  }

  ghost predicate Balanced(s: State) {
    forall c :: multiset(s.lookups)[c] + (if c in s.puzzles then 1 else 0) <= Challenges(s.issued)[c]
  }

  lemma StoreBalanced(hash: Hash, s: State, i: nat)
    requires Balanced(s) && Enabled(s, Store(i))
    ensures Balanced(Apply(hash, s, Store(i)))
  {
    assert Apply(hash, s, Store(i)).issued[..|s.issued|] == s.issued;
  }

  lemma LookUpBalanced(hash: Hash, s: State, i: nat)
    requires Balanced(s) && Enabled(s, LookUp(i))
    ensures Balanced(Apply(hash, s, LookUp(i)))
  {
    var t := Apply(hash, s, LookUp(i));
    assert t.issued == s.issued;
    hide Challenges;
    if s.handlers[i].challenge in s.puzzles {
      assert multiset(t.lookups) == multiset(s.lookups) + multiset{s.handlers[i].challenge};
    }
  }

  lemma OthersBalanced(hash: Hash, s: State, step: Step)
    requires Enabled(s, step) && !step.Store? && !step.LookUp?
    ensures var t := Apply(hash, s, step); t.puzzles == s.puzzles && t.lookups == s.lookups && t.issued == s.issued
  {}

  lemma StepBalanced(hash: Hash, s: State, step: Step)
    requires Balanced(s) && Enabled(s, step)
    ensures Balanced(Apply(hash, s, step))
  {
    hide Apply;
    match step
    case Store(i) => StoreBalanced(hash, s, i);
    case LookUp(i) => LookUpBalanced(hash, s, i);
    case _ => OthersBalanced(hash, s, step);
  }

  /** For each challenge string, the lookups that obtained a puzzle never outnumber the puzzles stored for it. */
  lemma {:induction false} LookupsNeverExceedIssues(hash: Hash, run: seq<State>, k: nat)
    requires Run(hash, run) && k < |run|
    ensures multiset(run[k].lookups) <= Challenges(run[k].issued)
    ensures Balanced(run[k])
  {
    if k > 0 {
      LookupsNeverExceedIssues(hash, run, k - 1);
      assert Next(hash, run[k - 1], run[k]);
      var step :| Enabled(run[k - 1], step) && run[k] == Apply(hash, run[k - 1], step);
      StepBalanced(hash, run[k - 1], step);
    }
  }

  // ----- The server's map

  ghost function Last(run: seq<State>): State
    requires run != []
  {
    run[|run| - 1]
  }

  lemma Continue(hash: Hash, run: seq<State>, step: Step) returns (longer: seq<State>)
    requires Run(hash, run) && Enabled(Last(run), step)
    ensures Run(hash, longer) && longer == run + [Apply(hash, Last(run), step)]
  {
    hide Apply;
    var t := Apply(hash, Last(run), step);
    longer := run + [t];
    assert Next(hash, Last(run), t);
    forall k | 0 < k < |longer| ensures Next(hash, longer[k - 1], longer[k]) {
      assert k < |run| ==> Next(hash, run[k - 1], run[k]);
    }
  }

  /** The server, with the run that its map is the end of: its methods also take the steps they perform. */
  class Server {
    const hash: Hash
    var puzzles: map<string, Puzzle>
    ghost var now: State
    ghost var run: seq<State>

    ghost predicate Valid()
      reads this
    {
      && Run(hash, run) && now == Last(run)
      && puzzles.Keys == now.puzzles.Keys
      && forall k <- puzzles :: puzzles[k] == now.puzzles[k].p
    }

    constructor (hash: Hash, ghost clock: int)
      ensures Valid() && this.hash == hash && puzzles == map[]
      ensures now == State(clock, map[], [], [], [], [], [])
    {
      this.hash := hash;
      puzzles := map[];
      now := State(clock, map[], [], [], [], [], []);
      run := [now];
    }

    /** Every stored puzzle is kept under its own challenge. */
    lemma KeptUnderChallenge(challenge: string)
      requires Valid() && challenge in puzzles
      ensures puzzles[challenge].challenge == challenge
    {
      RunInv(hash, run, |run| - 1);
    }

    ghost method Take(step: Step)
      requires Run(hash, run) && now == Last(run) && Enabled(now, step)
      modifies this`now, this`run
      ensures now == Apply(hash, old(now), step)
      ensures Run(hash, run) && now == Last(run) && old(run) <= run
    {
      var longer := Continue(hash, run, step);
      run := longer;
      now := Last(run);
    }

    /** A puzzle made at time `at` is stored under its challenge, in place of an earlier one. */
    method StorePoW(p: Puzzle, ghost i: nat)
      requires Valid() && At(now, i) && now.handlers[i] == Generated(p)
      modifies this
      ensures Valid() && old(run) <= run
      ensures puzzles == old(puzzles)[p.challenge := p]
      ensures now.clock == old(now).clock && now.issued == old(now).issued + [p]
    {
      puzzles := puzzles[p.challenge := p];
      Take(Store(i));
    }

    /** handlePoWChallenge: make a puzzle and store it. */
    method IssuePoW(challenge: string, difficulty: int, at: int) returns (p: Puzzle)
      requires Valid() && now.clock <= at
      modifies this
      ensures Valid() && old(run) <= run
      ensures p == Puzzle(challenge, difficulty, at + 300_000_000_000)
      ensures puzzles == old(puzzles)[challenge := p]
      ensures now.clock == at && now.issued == old(now).issued + [p]
    {
      Take(Tick(at - now.clock));
      ghost var i := |now.handlers|;
      p := Puzzle(challenge, difficulty, at + PUZZLE_LIFETIME);
      Take(Generate(challenge, difficulty));
      StorePoW(p, i);
    }

    /** The part of consumePoW under the lock: look the puzzle up and remove it. */
    method TakePoW(challenge: string, nonce: nat, ghost i: nat) returns (found: Option<Puzzle>)
      requires Valid() && At(now, i) && now.handlers[i] == Asking(challenge, nonce)
      modifies this
      ensures Valid() && old(run) <= run
      ensures puzzles == old(puzzles) - {challenge}
      ensures found == if challenge in old(puzzles) then Some(old(puzzles)[challenge]) else None
      ensures now.clock == old(now).clock && now.creations == old(now).creations && At(now, i)
      ensures found.Some? ==> now.handlers[i] == Holding(found.value, old(now).puzzles[challenge].serial, nonce)
    {
      found := None;
      if challenge in puzzles {
        found := Some(puzzles[challenge]);
        puzzles := puzzles - {challenge};
      }
      Take(LookUp(i));
    }

    /**
     consumePoW: a puzzle is spent by any attempt, successful or not. Success means that the nonce solves the very
     challenge that the caller sent, in time, at the difficulty it was issued with; the caller is then admitted in
     the run.
     */
    method ConsumePoW(challenge: string, nonce: nat, at: int) returns (ok: bool, ghost i: nat)
      requires Valid() && now.clock <= at
      modifies this
      ensures Valid() && old(run) <= run
      ensures puzzles == old(puzzles) - {challenge}
      ensures ok <==>
                && challenge in old(puzzles) && at <= old(puzzles)[challenge].expiresAt
                && VerifyPoW(hash, challenge, nonce, old(puzzles)[challenge].difficulty)
      ensures now.clock == at && now.creations == old(now).creations
      ensures ok ==> At(now, i) && now.handlers[i].Admitted?
    {
      if challenge in puzzles {
        KeptUnderChallenge(challenge);
      }
      Take(Tick(at - now.clock));
      i := |now.handlers|;
      Take(Ask(challenge, nonce));
      var found := TakePoW(challenge, nonce, i);
      if found == None {
        return false, i;
      }
      Take(Check(i));
      if at > found.value.expiresAt {
        return false, i;
      }
      ok := Verify(hash, found.value.challenge, nonce, found.value.difficulty);
    }

    /** An admitted request has created its instance. */
    ghost method RecordCreation(i: nat)
      requires Valid() && At(now, i) && now.handlers[i].Admitted?
      modifies this`now, this`run
      ensures Valid() && old(run) <= run
      ensures now.clock == old(now).clock && now.creations == old(now).creations + [old(now).handlers[i].serial]
    {
      Take(Create(i));
    }

    /** In whatever way its methods were called: every gated creation goes with a puzzle of its own. */
    lemma GatedCreations()
      requires Valid()
      ensures forall i, j :: 0 <= i < j < |now.creations| ==> now.creations[i] != now.creations[j]
      ensures forall i :: 0 <= i < |now.creations| ==> Backed(hash, now, now.creations[i])
    {
      CreationsUseDistinctPuzzles(hash, run, |run| - 1);
    }
  }
}
