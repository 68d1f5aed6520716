/** From HR records to lifecycle actions: the last-state table and the deriver over it. */
module Lifecycle {
  import opened Collections
  import opened Text

  type Employee = string

  datatype Action = Joiner | Mover | Leaver | Skip

  datatype Field = Department | JobTitle | EmploymentType | ManagerId | Location

  const DRIVING_FIELDS: seq<Field> := [Department, JobTitle, EmploymentType, ManagerId, Location]

  /** The action-driving attributes; an absent or null one is the empty string. */
  datatype Attributes = Attributes(department: string, jobTitle: string, employmentType: string, managerId: string,
                                   location: string) {
    function Get(field: Field): string {
      match field
      case Department => department
      case JobTitle => jobTitle
      case EmploymentType => employmentType
      case ManagerId => managerId
      case Location => location
    }
  }

  datatype HrRecord = HrRecord(status: string, action: string, attributes: Attributes)

  datatype LastState = LastState(status: string, lastAction: string, attributes: Attributes)

  // Deriving.

  predicate Terminated(status: string) {
    Normalise(status) == "inactive" || Normalise(status) == "terminated"
  }

  predicate Differs(now: Attributes, before: Attributes, field: Field) {
    Normalise(now.Get(field)) != Normalise(before.Get(field))
  }

  predicate Changed(now: Attributes, before: Attributes) {
    exists i :: 0 <= i < |DRIVING_FIELDS| && Differs(now, before, DRIVING_FIELDS[i])
  }

  /** `_find_changed_driving_fields`: exactly the driving fields that differ. */
  method FindChangedDrivingFields(now: Attributes, before: Attributes) returns (changed: seq<Field>)
    ensures forall f :: f in changed <==> f in DRIVING_FIELDS && Differs(now, before, f)
    ensures changed != [] <==> Changed(now, before)
  {
    changed := [];
    for i := 0 to |DRIVING_FIELDS|
      invariant forall f :: f in changed <==> f in DRIVING_FIELDS[..i] && Differs(now, before, f)
    {
      TakeOneMore(DRIVING_FIELDS, i);
      var field := DRIVING_FIELDS[i];
      if Normalise(now.Get(field)) != Normalise(before.Get(field)) {
        changed := changed + [field];
      }
    }
    TakeAll(DRIVING_FIELDS);
    if changed != [] {
      assert changed[0] in DRIVING_FIELDS;
    }
    if Changed(now, before) {
      var i :| 0 <= i < |DRIVING_FIELDS| && Differs(now, before, DRIVING_FIELDS[i]);
      assert DRIVING_FIELDS[i] in changed;
    }
  }

  predicate IsTerminated(record: HrRecord) {
    Terminated(record.status) || Normalise(record.action) == "leaver"
  }

  function DeriveAction(record: HrRecord, last: Option<LastState>): Action {
    match last
    case None => if IsTerminated(record) then Skip else Joiner
    case Some(state) =>
      if IsTerminated(record) && !Terminated(state.status) then Leaver
      else if !IsTerminated(record) && Terminated(state.status) then Joiner
      else if IsTerminated(record) then Skip
      else if Changed(record.attributes, state.attributes) then Mover
      else Skip
  }

  method DeriveLifecycleAction(record: HrRecord, last: Option<LastState>) returns (action: Action)
    ensures action == DeriveAction(record, last)
  {
    var terminated := Terminated(record.status);
    if Normalise(record.action) == "leaver" {
      terminated := true;
    }
    if last.None? {
      return if terminated then Skip else Joiner;
    }
    var wasTerminated := Terminated(last.value.status);
    if terminated && !wasTerminated {
      return Leaver;
    }
    if !terminated && wasTerminated {
      return Joiner;
    }
    if terminated && wasTerminated {
      return Skip;
    }
    var changed := FindChangedDrivingFields(record.attributes, last.value.attributes);
    return if changed != [] then Mover else Skip;
  }

  // The table.

  function Name(action: Action): string {
    match action
    case Joiner => "Joiner"
    case Mover => "Mover"
    case Leaver => "Leaver"
    case Skip => "Skip"
  }

  /** What the save activity leaves for an action: a Leaver is marked Inactive whatever its record says. */
  function Saved(action: Action, record: HrRecord): LastState {
    if action == Leaver then LastState("Inactive", "Leaver", record.attributes)
    else LastState(record.status, record.action, record.attributes)
  }

  /** The table, and as a ghost the history of notices and saves that led to it. */
  class LastStateStore {
    var states: map<Employee, LastState>
    ghost var history: seq<Step>

    ghost predicate Valid()
      reads this
    {
      states == Table(history)
    }

    constructor ()
      ensures Valid() && history == []
    {
      states := map[];
      history := [];
    }

    function GetLastState(employee: Employee): Option<LastState>
      reads this
    {
      Lookup(states, employee)
    }

    method SaveLastState(employee: Employee, record: HrRecord)
      modifies this`states
      ensures states == old(states)[employee := LastState(record.status, record.action, record.attributes)]
    {
      states := states[employee := LastState(record.status, record.action, record.attributes)];
    }

    method MarkTerminated(employee: Employee, record: HrRecord)
      modifies this`states
      ensures states == old(states)[employee := LastState("Inactive", "Leaver", record.attributes)]
    {
      SaveLastState(employee, record.(status := "Inactive", action := "Leaver"));
    }

    /** `save_last_state_activity`. */
    method Save(employee: Employee, action: Action, record: HrRecord)
      modifies this`states
      ensures states == old(states)[employee := Saved(action, record)]
    {
      if action == Leaver {
        MarkTerminated(employee, record);
      } else {
        SaveLastState(employee, record);
      }
    }

    /**
     * One webhook record: derive from what is stored now and, when there is something to
     * do, start a run with the action written into the record.  Nothing is stored yet.
     */
    method Receive(employee: Employee, record: HrRecord) returns (run: Option<HrRecord>, action: Action)
      requires Valid()
      modifies this`history
      ensures Valid() && history == old(history) + [Notice(employee, record)]
      ensures action == ActionAt(history, |old(history)|)
      ensures run == if action == Skip then None else Some(Dispatched(history, |old(history)|))
    {
      TakeOfConcat(history, Notice(employee, record));
      action := DeriveLifecycleAction(record, GetLastState(employee));
      history := history + [Notice(employee, record)];
      run := if action == Skip then None else Some(record.(action := Name(action)));
    }

    /** The last step of the run that `notice` started, whenever it comes. */
    method EndRun(employee: Employee, action: Action, record: HrRecord, ghost notice: nat)
      requires Valid() && StartsRun(history, notice) && employee == history[notice].employee
      requires action == ActionAt(history, notice) && record == Dispatched(history, notice)
      modifies this
      ensures Valid() && history == old(history) + [RunSaves(notice)]
    {
      TakeOfConcat(history, RunSaves(notice));
      StartsStay(history, history + [RunSaves(notice)], notice);
      Save(employee, action, record);
      history := history + [RunSaves(notice)];
    }
  }

  function Lookup(states: map<Employee, LastState>, employee: Employee): Option<LastState> {
    if employee in states then Some(states[employee]) else None
  }

  // Histories.

  /**
   * What happens to the table over time: a notice about an employee is derived from the
   * table as it is then and, unless that gives Skip, starts a run; the run started by the
   * notice at that position saves, if it gets that far, at any later time.
   */
  datatype Step =
    | Notice(employee: Employee, record: HrRecord)
    | RunSaves(notice: nat)

  /** The table after a history, starting empty. */
  function Table(history: seq<Step>): map<Employee, LastState>
    decreases |history|, 0
  {
    if history == [] then map[]
    else
      var rest, last := history[..|history| - 1], history[|history| - 1];
      if last.RunSaves? && StartsRun(rest, last.notice)
      then
        Table(rest)[rest[last.notice].employee :=
          Saved(ActionAt(rest, last.notice), Dispatched(rest, last.notice))]
      else Table(rest)
  }

  /** The action derived for the notice at position `i`. */
  function ActionAt(history: seq<Step>, i: nat): Action
    requires i < |history| && history[i].Notice?
    decreases |history|, 1
  {
    DeriveAction(history[i].record, Lookup(Table(history[..i]), history[i].employee))
  }

  predicate StartsRun(history: seq<Step>, i: nat)
    decreases |history|, 2
  {
    i < |history| && history[i].Notice? && ActionAt(history, i) != Skip
  }

  /** The record as it is dispatched: with the derived action written into it. */
  function Dispatched(history: seq<Step>, i: nat): HrRecord
    requires i < |history| && history[i].Notice?
    decreases |history|, 2
  {
    history[i].record.(action := Name(ActionAt(history, i)))
  }

  lemma TakeOfConcat(history: seq<Step>, step: Step)
    ensures (history + [step])[..|history|] == history
  {
  }

  lemma StartsStay(history: seq<Step>, more: seq<Step>, i: nat)
    requires history <= more && i < |history|
    ensures StartsRun(history, i) <==> StartsRun(more, i)
    ensures history[i].Notice? ==> ActionAt(history, i) == ActionAt(more, i)
  {
    assert history[..i] == more[..i] && history[i] == more[i];
  }

  /** The save at position `j` is one of a run for this employee. */
  predicate SavesFor(history: seq<Step>, employee: Employee, j: nat)
    requires j < |history|
  {
    history[j].RunSaves? && history[j].notice < j && StartsRun(history, history[j].notice)
    && history[history[j].notice].employee == employee
  }

  /** The actions saved for one employee over a history, in order. */
  function Effects(history: seq<Step>, employee: Employee): seq<Action> {
    if history == [] then []
    else
      var n := |history| - 1;
      if SavesFor(history, employee, n) then Effects(history[..n], employee) + [ActionAt(history, history[n].notice)]
      else Effects(history[..n], employee)
  }

  // The lifecycle grammar.

  function Movers(n: nat): seq<Action> {
    seq(n, _ => Mover)
  }

  /** One employment: joined, moved `n` times. */
  function Employment(n: nat): seq<Action> {
    [Joiner] + Movers(n)
  }

  /** Finished employments one after another: (Joiner Mover* Leaver)*. */
  function Careers(moves: seq<nat>): seq<Action> {
    if moves == [] then []
    else Careers(moves[..|moves| - 1]) + Employment(moves[|moves| - 1]) + [Leaver]
  }

  /** The action may come next for an employee who is or is not employed. */
  predicate Fits(action: Action, employed: bool) {
    match action
    case Joiner => !employed
    case Skip => false
    case _ => employed
  }

  /** The actions leave an employment open. */
  predicate Open(actions: seq<Action>) {
    actions != [] && (actions[|actions| - 1] == Joiner || actions[|actions| - 1] == Mover)
  }

  /** The grammar action by action. */
  predicate InGrammar(actions: seq<Action>) {
    actions == [] ||
    (InGrammar(actions[..|actions| - 1]) && Fits(actions[|actions| - 1], Open(actions[..|actions| - 1])))
  }

  /** Actions that fit are finished careers, or those and one employment under way. */
  ghost predicate Follows(actions: seq<Action>) {
    if Open(actions) then exists moves, n: nat :: actions == Careers(moves) + Employment(n)
    else exists moves :: actions == Careers(moves)
  }

  lemma {:induction false} GrammarFollows(actions: seq<Action>)
    requires InGrammar(actions)
    ensures Follows(actions)
  {
    if actions == [] {
      assert actions == Careers([]);
    } else {
      var init, last := actions[..|actions| - 1], actions[|actions| - 1];
      GrammarFollows(init);
      OneActionFollows(init, last);
      assert actions == init + [last];
    }
  }

  lemma OneActionFollows(actions: seq<Action>, action: Action)
    requires Follows(actions) && Fits(action, Open(actions))
    ensures Follows(actions + [action])
  {
    match action
    case Joiner =>
      var moves: seq<nat> :| actions == Careers(moves);
      assert actions + [Joiner] == Careers(moves) + Employment(0);
    case Mover =>
      var moves: seq<nat>, n: nat :| actions == Careers(moves) + Employment(n);
      OneMoreMove(actions, moves, n);
    case Leaver =>
      var moves: seq<nat>, n: nat :| actions == Careers(moves) + Employment(n);
      CareerEnds(actions, moves, n);
  }

  lemma OneMoreMove(actions: seq<Action>, moves: seq<nat>, n: nat)
    requires actions == Careers(moves) + Employment(n)
    ensures actions + [Mover] == Careers(moves) + Employment(n + 1)
  {
    assert Movers(n + 1) == Movers(n) + [Mover];
  }

  lemma CareerEnds(actions: seq<Action>, moves: seq<nat>, n: nat)
    requires actions == Careers(moves) + Employment(n)
    ensures actions + [Leaver] == Careers(moves + [n])
  {
    assert (moves + [n])[..|moves|] == moves;
  }

  lemma OneMoreFits(actions: seq<Action>, action: Action)
    ensures InGrammar(actions + [action]) <==> InGrammar(actions) && Fits(action, Open(actions))
  {
    assert (actions + [action])[..|actions|] == actions;
  }

  lemma {:induction false} EmploymentsFit(actions: seq<Action>, n: nat)
    requires InGrammar(actions) && !Open(actions)
    ensures InGrammar(actions + Employment(n)) && Open(actions + Employment(n))
  {
    if n == 0 {
      OneMoreFits(actions, Joiner);
      assert Employment(0) == [Joiner];
    } else {
      EmploymentsFit(actions, n - 1);
      OneMoreFits(actions + Employment(n - 1), Mover);
      assert actions + Employment(n) == actions + Employment(n - 1) + [Mover];
    }
  }

  lemma {:induction false} CareersFit(moves: seq<nat>)
    ensures InGrammar(Careers(moves)) && !Open(Careers(moves))
  {
    if moves != [] {
      var rest, last := moves[..|moves| - 1], moves[|moves| - 1];
      CareersFit(rest);
      EmploymentsFit(Careers(rest), last);
      OneMoreFits(Careers(rest) + Employment(last), Leaver);
    }
  }

  lemma {:induction false} PrefixesFit(actions: seq<Action>, more: seq<Action>)
    requires actions <= more && InGrammar(more)
    ensures InGrammar(actions)
  {
    if actions != more {
      PrefixesFit(actions, more[..|more| - 1]);
    }
  }

  /** Checked action by action or as a whole, it is the same grammar. */
  lemma GrammarIsPrefixOfCareers(actions: seq<Action>)
    ensures InGrammar(actions) <==> exists moves :: actions <= Careers(moves)
  {
    if InGrammar(actions) {
      GrammarFollows(actions);
      if Open(actions) {
        var moves: seq<nat>, n: nat :| actions == Careers(moves) + Employment(n);
        CareerEnds(actions, moves, n);
        assert actions <= Careers(moves + [n]);
      } else {
        var moves: seq<nat> :| actions == Careers(moves);
        assert actions <= Careers(moves);
      }
    }
    if moves: seq<nat> :| actions <= Careers(moves) {
      CareersFit(moves);
      PrefixesFit(actions, Careers(moves));
    }
  }

  lemma InactiveIsTerminated()
    ensures Terminated("Inactive")
  {
    var s := "Inactive";
    assert StripLeft(s) == s && StripRight(s) == s;
    assert Lower(s) == "inactive";
  }

  /** The name written into a record that is not a Leaver never reads as one. */
  lemma NamesDoNotTerminate(action: Action)
    ensures Normalise(Name(action)) == "leaver" <==> action == Leaver
  {
    var s := Name(action);
    assert StripLeft(s) == s && StripRight(s) == s;
    assert Lower(s)[0] == LowerChar(s[0]);
    if action == Leaver {
      assert Lower(s) == "leaver";
    }
  }

  /** The table has the employee as employed. */
  predicate Employed(last: Option<LastState>) {
    last.Some? && !Terminated(last.value.status)
  }

  /**
   * What an action says: Joiner that an employment starts, Leaver that it ends, Mover that
   * it goes on with another driving attribute, Skip that nothing changed.  Once saved, the
   * table has the employee employed exactly if the record does, with its attributes.
   */
  lemma ActionsTrackEmployment(last: Option<LastState>, record: HrRecord)
    ensures var action := DeriveAction(record, last);
      && (action == Joiner <==> !Employed(last) && !IsTerminated(record))
      && (action == Leaver <==> Employed(last) && IsTerminated(record))
      && (action == Mover <==>
            Employed(last) && !IsTerminated(record) && Changed(record.attributes, last.value.attributes))
      && (action != Skip ==>
            var after := Saved(action, record.(action := Name(action)));
            && (Employed(Some(after)) <==> !IsTerminated(record))
            && (Employed(Some(after)) <==> action != Leaver)
            && !Changed(record.attributes, after.attributes))
  {
    InactiveIsTerminated();
    var action := DeriveAction(record, last);
    var after := Saved(action, record.(action := Name(action)));
    assert forall i :: 0 <= i < |DRIVING_FIELDS| ==> !Differs(record.attributes, after.attributes, DRIVING_FIELDS[i]);
  }

  /** Right after its run was saved, the same record derives nothing to do. */
  lemma SavedRecordsSettle(last: Option<LastState>, record: HrRecord)
    requires DeriveAction(record, last) != Skip
    ensures var action := DeriveAction(record, last);
      DeriveAction(record, Some(Saved(action, record.(action := Name(action))))) == Skip
  {
    var action := DeriveAction(record, last);
    ActionsTrackEmployment(last, record);
    ActionsTrackEmployment(Some(Saved(action, record.(action := Name(action)))), record);
  }

  /** So does the record as it was dispatched, with the action written into it. */
  lemma DispatchedRecordsSettle(last: Option<LastState>, record: HrRecord)
    requires DeriveAction(record, last) != Skip
    ensures var dispatched := record.(action := Name(DeriveAction(record, last)));
      DeriveAction(dispatched, Some(Saved(DeriveAction(record, last), dispatched))) == Skip
  {
    var action := DeriveAction(record, last);
    var dispatched := record.(action := Name(action));
    NamesDoNotTerminate(action);
    ActionsTrackEmployment(last, record);
    ActionsTrackEmployment(Some(Saved(action, dispatched)), dispatched);
  }

  // Which histories keep the grammar.

  /** Whatever is saved in whatever order, the table has an employee employed as the last saved action says. */
  lemma {:induction false} TableTellsTheLastAction(history: seq<Step>, employee: Employee)
    ensures Employed(Lookup(Table(history), employee)) <==> Open(Effects(history, employee))
  {
    if history != [] {
      var n := |history| - 1;
      var rest, last := history[..n], history[n];
      TableTellsTheLastAction(rest, employee);
      if last.RunSaves? && last.notice < n {
        StartsStay(rest, history, last.notice);
        if StartsRun(rest, last.notice) && rest[last.notice].employee == employee {
          var notice := rest[last.notice];
          ActionsTrackEmployment(Lookup(Table(rest[..last.notice]), employee), notice.record);
          assert Effects(history, employee) == Effects(rest, employee) + [ActionAt(history, last.notice)];
        }
      }
    }
  }

  /** The save finds the employee employed, or not, as the notice that started its run did. */
  predicate FindsAsNoticed(history: seq<Step>, employee: Employee, j: nat)
    requires j < |history| && SavesFor(history, employee, j)
  {
    Employed(Lookup(Table(history[..j]), employee)) == Employed(Lookup(Table(history[..history[j].notice]), employee))
  }

  ghost predicate AllFindAsNoticed(history: seq<Step>, employee: Employee) {
    forall j :: 0 <= j < |history| && SavesFor(history, employee, j) ==> FindsAsNoticed(history, employee, j)
  }

  lemma AllFindAsNoticedStep(history: seq<Step>, employee: Employee)
    requires history != []
    ensures var n := |history| - 1;
      AllFindAsNoticed(history, employee) <==>
        AllFindAsNoticed(history[..n], employee) &&
        (SavesFor(history, employee, n) ==> FindsAsNoticed(history, employee, n))
  {
    var n := |history| - 1;
    var rest := history[..n];
    forall j | 0 <= j < n
      ensures SavesFor(rest, employee, j) <==> SavesFor(history, employee, j)
      ensures SavesFor(rest, employee, j) ==>
        (FindsAsNoticed(rest, employee, j) <==> FindsAsNoticed(history, employee, j))
    {
      assert rest[j] == history[j] && rest[..j] == history[..j];
      if rest[j].RunSaves? && rest[j].notice < j {
        StartsStay(rest, history, rest[j].notice);
        assert rest[..rest[j].notice] == history[..rest[j].notice];
      }
    }
  }

  /**
   * Exactly which histories keep the lifecycle grammar: the actions saved for an employee
   * are a prefix of a sequence of careers (Joiner Mover* Leaver)* if and only if every
   * run, when it saves, finds the employee employed, or not, as its notice did.
   */
  lemma {:induction false} GrammarIffFoundAsNoticed(history: seq<Step>, employee: Employee)
    ensures InGrammar(Effects(history, employee)) <==> AllFindAsNoticed(history, employee)
  {
    if history != [] {
      var n := |history| - 1;
      GrammarIffFoundAsNoticed(history[..n], employee);
      AllFindAsNoticedStep(history, employee);
      if SavesFor(history, employee, n) {
        SaveFitsIff(history, employee);
      }
    }
  }

  lemma SaveFitsIff(history: seq<Step>, employee: Employee)
    requires history != [] && SavesFor(history, employee, |history| - 1)
    ensures var n := |history| - 1;
      InGrammar(Effects(history, employee)) <==>
        InGrammar(Effects(history[..n], employee)) && FindsAsNoticed(history, employee, n)
  {
    var n := |history| - 1;
    var i := history[n].notice;
    OneMoreFits(Effects(history[..n], employee), ActionAt(history, i));
    TableTellsTheLastAction(history[..n], employee);
    ActionsTrackEmployment(Lookup(Table(history[..i]), employee), history[i].record);
  }

  lemma ActionsFollowTheGrammarIff(history: seq<Step>, employee: Employee)
    ensures (exists moves :: Effects(history, employee) <= Careers(moves)) <==> AllFindAsNoticed(history, employee)
  {
    GrammarIsPrefixOfCareers(Effects(history, employee));
    GrammarIffFoundAsNoticed(history, employee);
  }

  /** Between a notice and the save of its run no other run of the employee saves. */
  ghost predicate OneAtATime(history: seq<Step>, employee: Employee) {
    forall j, m :: 0 <= m < j < |history| && SavesFor(history, employee, j) && SavesFor(history, employee, m) ==>
      m < history[j].notice
  }

  lemma {:induction false} TableKeeps(history: seq<Step>, employee: Employee, i: nat, n: nat)
    requires i <= n <= |history|
    requires forall m :: i <= m < n ==> !SavesFor(history, employee, m)
    ensures Lookup(Table(history[..n]), employee) == Lookup(Table(history[..i]), employee)
  {
    if i < n {
      TableKeeps(history, employee, i, n - 1);
      assert history[..n][..n - 1] == history[..n - 1] && !SavesFor(history, employee, n - 1);
      var last := history[n - 1];
      if last.RunSaves? && last.notice < n - 1 {
        StartsStay(history[..n - 1], history, last.notice);
      }
    }
  }

  /**
   * So the grammar holds for every history of any employees' notices in which runs of one
   * employee do not overlap, whichever of them get as far as saving.
   */
  lemma ActionsFollowTheGrammar(history: seq<Step>, employee: Employee)
    requires OneAtATime(history, employee)
    ensures exists moves :: Effects(history, employee) <= Careers(moves)
  {
    forall j | 0 <= j < |history| && SavesFor(history, employee, j) ensures FindsAsNoticed(history, employee, j) {
      TableKeeps(history, employee, history[j].notice, j);
    }
    ActionsFollowTheGrammarIff(history, employee);
  }

  lemma OneMoreStep(history: seq<Step>, step: Step, employee: Employee)
    ensures step.Notice? ==>
      Table(history + [step]) == Table(history) && Effects(history + [step], employee) == Effects(history, employee)
    ensures step.RunSaves? && StartsRun(history, step.notice) && history[step.notice].employee == employee ==>
      Effects(history + [step], employee) == Effects(history, employee) + [ActionAt(history, step.notice)]
  {
    TakeOfConcat(history, step);
    if step.RunSaves? && step.notice < |history| {
      StartsStay(history, history + [step], step.notice);
    }
  }

  lemma FirstNoticesJoin(history: seq<Step>, i: nat)
    requires i < |history| && history[i].Notice? && Table(history[..i]) == map[] && !IsTerminated(history[i].record)
    ensures ActionAt(history, i) == Joiner && StartsRun(history, i)
  {
  }

  /** The grammar does fail: two notices of a new employee before either run saves are both Joiners. */
  lemma OverlappingRunsBreakTheGrammar(employee: Employee, record: HrRecord)
    requires !IsTerminated(record)
    ensures var history := [Notice(employee, record), Notice(employee, record), RunSaves(0), RunSaves(1)];
      Effects(history, employee) == [Joiner, Joiner] && !InGrammar([Joiner, Joiner])
  {
    var notice := Notice(employee, record);
    var one := [notice];
    var two := one + [notice];
    var three := two + [RunSaves(0)];
    OneMoreStep([], notice, employee);
    OneMoreStep(one, notice, employee);
    BothJoin(two);
    OneMoreStep(two, RunSaves(0), employee);
    StartsStay(two, three, 1);
    OneMoreStep(three, RunSaves(1), employee);
    assert three + [RunSaves(1)] == [notice, notice, RunSaves(0), RunSaves(1)];
    OneMoreFits([Joiner], Joiner);
    assert [Joiner] + [Joiner] == [Joiner, Joiner];
  }

  lemma {:induction false} BothJoin(two: seq<Step>)
    requires |two| == 2 && two[0] == two[1] && two[0].Notice? && !IsTerminated(two[0].record)
    ensures forall i :: 0 <= i < 2 ==> StartsRun(two, i) && ActionAt(two, i) == Joiner
  {
    OneMoreStep([], two[0], two[0].employee);
    assert two[..0] == [] && two[..1] == [] + [two[0]];
    FirstNoticesJoin(two, 0);
    FirstNoticesJoin(two, 1);
  }

  // What the words of a record mean.

  /** Inactive and terminated mean the employee has left, whatever their case, and active does not. */
  lemma TerminatedIff(status: string)
    ensures Terminated(status) <==> Normalise(status) in {"inactive", "terminated"}
    ensures Terminated("Inactive") && Terminated("TERMINATED") && !Terminated("Active") && !Terminated("")
  {
    var a, b, c := "Inactive", "TERMINATED", "Active";
    assert StripRight(StripLeft(a)) == a && StripRight(StripLeft(b)) == b && StripRight(StripLeft(c)) == c;
    assert Lower(a) == "inactive" && Lower(b) == "terminated" && |Lower(c)| == 6;
    assert StripRight(StripLeft("")) == "";
  }

  /** A record is of a leaver if its status or the action written into it says so. */
  lemma LeaverIff(record: HrRecord, last: Option<LastState>)
    ensures DeriveAction(record, last) == Leaver <==>
      && last.Some? && Normalise(last.value.status) !in {"inactive", "terminated"}
      && (Normalise(record.status) in {"inactive", "terminated"} || Normalise(record.action) == "leaver")
    ensures DeriveAction(record, last) == Joiner <==>
      && (last.None? || Normalise(last.value.status) in {"inactive", "terminated"})
      && !(Normalise(record.status) in {"inactive", "terminated"} || Normalise(record.action) == "leaver")
  {
  }

  ghost predicate Unlike(now: Attributes, before: Attributes) {
    || Normalise(now.department) != Normalise(before.department)
    || Normalise(now.jobTitle) != Normalise(before.jobTitle)
    || Normalise(now.employmentType) != Normalise(before.employmentType)
    || Normalise(now.managerId) != Normalise(before.managerId)
    || Normalise(now.location) != Normalise(before.location)
  }

  lemma ChangedIff(now: Attributes, before: Attributes)
    ensures Changed(now, before) <==> Unlike(now, before)
  {
    var fields := DRIVING_FIELDS;
    assert fields[0] == Department && fields[1] == JobTitle && fields[2] == EmploymentType
      && fields[3] == ManagerId && fields[4] == Location;
    assert Differs(now, before, fields[0]) <==> Normalise(now.department) != Normalise(before.department);
    assert Differs(now, before, fields[1]) <==> Normalise(now.jobTitle) != Normalise(before.jobTitle);
    assert Differs(now, before, fields[2]) <==> Normalise(now.employmentType) != Normalise(before.employmentType);
    assert Differs(now, before, fields[3]) <==> Normalise(now.managerId) != Normalise(before.managerId);
    assert Differs(now, before, fields[4]) <==> Normalise(now.location) != Normalise(before.location);
  }

  /** A mover is who goes on with another department, title, employment type, manager or location. */
  lemma MoverIff(record: HrRecord, last: Option<LastState>)
    ensures DeriveAction(record, last) == Mover <==>
      Employed(last) && !IsTerminated(record) && Unlike(record.attributes, last.value.attributes)
  {
    if last.Some? {
      ChangedIff(record.attributes, last.value.attributes);
    }
  }

  /** What the save of a run leaves: the record it was started with, under the word for what happened. */
  lemma StoredRowIs(record: HrRecord, last: Option<LastState>)
    ensures var action := DeriveAction(record, last);
      var stored := Saved(action, record.(action := Name(action)));
      && stored.attributes == record.attributes
      && (Employed(last) && IsTerminated(record) ==>
            stored.status == "Inactive" && stored.lastAction == "Leaver")
      && (last.None? && !IsTerminated(record) ==> stored.status == record.status && stored.lastAction == "Joiner")
      && (Employed(last) && !IsTerminated(record) && Unlike(record.attributes, last.value.attributes) ==>
            stored.status == record.status && stored.lastAction == "Mover")
  {
    LeaverIff(record, last);
    MoverIff(record, last);
  }
}
