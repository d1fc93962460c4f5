/** The lifecycle state machine as values: the per-phase transition table
    of `handle_choice`, one menu round, the start-up sequence of `run` and
    the menu loop it enters. */
module Transitions {
  import opened Wrappers
  import opened Text
  import opened Phases
  import opened Record
  import opened Tools
  import opened Procedures

  /** The procedure a menu entry runs before it may commit its move. */
  datatype Action = Proceed | RunSetup | RunGenerate(env: string) | RunDeploy | RunDestroy

  /** A menu entry: its guarding procedure and the phase and environment
      committed when that procedure succeeds. */
  datatype Move = Move(action: Action, phase: State, env: string)

  /** How many numbered entries the menu lists in each phase. */
  function OptionCount(p: State): nat {
    match p
    case SETUP => 3
    case GENERATE => 2
    case DEPLOY => 3
    case DESTROY => 3
  }

  /** The table of `handle_choice` for a non-zero choice. Exactly the
      entries the menu lists are handled; a move into SETUP or GENERATE
      always resets the environment to `none`, and every other move either
      keeps the current environment or selects the one it generated. */
  function Route(p: State, env: string, choice: nat): (m: Option<Move>)
    ensures m.Some? <==> 1 <= choice <= OptionCount(p)
    ensures m.Some? && (m.value.phase == SETUP || m.value.phase == GENERATE) ==> m.value.env == "none"
    ensures m.Some? && m.value.phase != SETUP && m.value.phase != GENERATE ==>
              m.value.env == env || (m.value.action.RunGenerate? && m.value.env == m.value.action.env)
    ensures m.Some? && m.value.action.RunGenerate? ==> p == SETUP && IsEnvironment(m.value.action.env)
    ensures m.Some? && m.value.action.RunDeploy? ==> p == DEPLOY && m.value.env == env
    ensures m.Some? && m.value.action.RunDestroy? ==> p == DESTROY
  {
    match p
    case SETUP =>
      if choice == 1 then Some(Move(RunSetup, GENERATE, "none"))
      else if choice == 2 then Some(Move(RunGenerate("pre-prod"), DEPLOY, "pre-prod"))
      else if choice == 3 then Some(Move(RunGenerate("prod"), DEPLOY, "prod"))
      else None
    case GENERATE =>
      if choice == 1 then Some(Move(Proceed, DEPLOY, env))
      else if choice == 2 then Some(Move(Proceed, SETUP, "none"))
      else None
    case DEPLOY =>
      if choice == 1 then Some(Move(RunDeploy, DESTROY, env))
      else if choice == 2 then Some(Move(Proceed, DESTROY, env))
      else if choice == 3 then Some(Move(Proceed, SETUP, "none"))
      else None
    case DESTROY =>
      if choice == 1 then Some(Move(RunDestroy, SETUP, "none"))
      else if choice == 2 then Some(Move(Proceed, SETUP, "none"))
      else if choice == 3 then Some(Move(Proceed, DEPLOY, env))
      else None
  }

  /** Everything the manager holds: phase, environment, project directory,
      and the contents of the state file (None while it does not exist). */
  datatype Machine = Machine(phase: State, env: string, projectDir: string, stateFile: Option<string>)

  /** `save_state`: set both fields and rewrite the whole state file. */
  function Save(m: Machine, phase: State, env: string): Machine {
    m.(phase := phase, env := env, stateFile := Some(Serialize(Record(phase, env))))
  }

  /** A guarding procedure's outcome and the project directory it leaves. */
  datatype Performed = Performed(ok: bool, ran: seq<Command>, projectDir: string)

  /** Runs the guarding procedure of a menu entry, with `name` and `answer`
      as the text typed at its prompts. */
  function Perform(m: Machine, action: Action, name: string, answer: string, host: Host): Performed {
    match action
    case Proceed => Performed(true, [], m.projectDir)
    case RunSetup =>
      var s := SetupAttempt(name, m.projectDir, host);
      Performed(s.ok, s.ran, s.projectDir)
    case RunGenerate(env) =>
      var a := GenerateAttempt(m.projectDir, env, host);
      Performed(a.ok, a.ran, m.projectDir)
    case RunDeploy =>
      var a := DeployAttempt(m.projectDir, m.env, answer, host);
      Performed(a.ok, a.ran, m.projectDir)
    case RunDestroy =>
      var a := DestroyAttempt(m.projectDir, m.env, answer, host);
      Performed(a.ok, a.ran, m.projectDir)
  }

  /** The outcome of one menu round: the new machine, the commands
      launched and whether exit was requested. */
  datatype Effect = Effect(after: Machine, ran: seq<Command>, exit: bool)

  /** `handle_choice(choice)`: 0 requests exit; a choice the table does not
      list changes nothing; otherwise the entry's procedure runs, the round
      launches exactly its commands and keeps the project directory it
      leaves, and its move is committed through `save_state` exactly when
      it succeeded. */
  function Next(m: Machine, choice: nat, name: string, answer: string, host: Host): (e: Effect)
    ensures e.exit <==> choice == 0
    ensures e.exit || Route(m.phase, m.env, choice).None? ==> e.after == m && e.ran == []
    ensures e.after.phase != m.phase || e.after.env != m.env || e.after.stateFile != m.stateFile ==>
              var mv := Route(m.phase, m.env, choice).value;
              Perform(m, mv.action, name, answer, host).ok && e.after == Save(e.after, mv.phase, mv.env)
    ensures !e.exit && Route(m.phase, m.env, choice).Some? ==>
              var mv := Route(m.phase, m.env, choice).value;
              Perform(m, mv.action, name, answer, host).ok ==>
                e.after.phase == mv.phase && e.after.env == mv.env
                && e.after.stateFile == Some(Serialize(Record(mv.phase, mv.env)))
    ensures !e.exit && Route(m.phase, m.env, choice).Some? ==>
              var p := Perform(m, Route(m.phase, m.env, choice).value.action, name, answer, host);
              e.ran == p.ran && e.after.projectDir == p.projectDir
  {
    if choice == 0 then Effect(m, [], true)
    else
      match Route(m.phase, m.env, choice)
      case None => Effect(m, [], false)
      case Some(mv) =>
        var p := Perform(m, mv.action, name, answer, host);
        var m1 := m.(projectDir := p.projectDir);
        Effect(if p.ok then Save(m1, mv.phase, mv.env) else m1, p.ran, false)
  }

  /** Unfolding step of `Next` for a listed choice: its entry's procedure
      runs and the move is committed exactly when that procedure succeeded. */
  lemma NextFollowsRoute(m: Machine, choice: nat, name: string, answer: string, host: Host, mv: Move)
    requires choice != 0 && Route(m.phase, m.env, choice) == Some(mv)
    ensures var p := Perform(m, mv.action, name, answer, host);
            var m1 := m.(projectDir := p.projectDir);
            Next(m, choice, name, answer, host) == Effect(if p.ok then Save(m1, mv.phase, mv.env) else m1, p.ran, false)
  {
  }

  /** Failure containment: when the guarding procedure fails, phase,
      environment and state file are as before (only a setup attempt may
      have replaced the project directory). */
  lemma FailureContainment(m: Machine, choice: nat, name: string, answer: string, host: Host)
    requires Route(m.phase, m.env, choice).Some?
    requires !Perform(m, Route(m.phase, m.env, choice).value.action, name, answer, host).ok
    ensures var e := Next(m, choice, name, answer, host);
            e.after.phase == m.phase && e.after.env == m.env && e.after.stateFile == m.stateFile
            && (Route(m.phase, m.env, choice).value.action != RunSetup ==> e.after.projectDir == m.projectDir)
  {
  }

  /** A host on which every step the current menu can reach succeeds: every
      command passes, the typed name is usable, the generator scripts and
      the selected environment's directory exist, and the answer confirms. */
  ghost predicate Cooperative(m: Machine, name: string, answer: string, host: Host) {
    && (forall c :: host.passes(c))
    && Strip(name) != [] && (ProjectDirFor(name) in host.paths ==> WellStructured(ProjectDirFor(name), host.paths))
    && GeneratorScript("pre-prod") in host.paths && GeneratorScript("prod") in host.paths
    && (m.phase == DEPLOY || m.phase == DESTROY ==> IsEnvironment(m.env) && EnvDir(m.projectDir, m.env) in host.paths)
    && IsYes(answer)
  }

  /** Under a cooperative host every listed entry commits exactly the move
      of the table and rewrites the state file with it. */
  lemma TableOnSuccess(m: Machine, choice: nat, name: string, answer: string, host: Host)
    requires Cooperative(m, name, answer, host)
    requires Route(m.phase, m.env, choice).Some?
    ensures var mv := Route(m.phase, m.env, choice).value;
            var e := Next(m, choice, name, answer, host);
            e.after.phase == mv.phase && e.after.env == mv.env
            && e.after.stateFile == Some(Serialize(Record(mv.phase, mv.env)))
  {
    var mv := Route(m.phase, m.env, choice).value;
    var p := Perform(m, mv.action, name, answer, host);
    match mv.action {
      case RunDeploy =>
        DeploySucceeds(m.projectDir, m.env, answer, host);
      case RunDestroy =>
        DestroySucceeds(m.projectDir, m.env, answer, host);
      case RunGenerate(env) =>
        GenerateSucceeds(m.projectDir, env, host);
      case RunSetup =>
        assert host.passes(Bootstrap());
      case Proceed =>
    }
    assert p.ok;
    assert Next(m, choice, name, answer, host).after == Save(m.(projectDir := p.projectDir), mv.phase, mv.env);
  }

  /** The consistency every move keeps: SETUP and GENERATE carry `none`,
      and the environment is `none`, `pre-prod` or `prod`. */
  predicate Consistent(m: Machine) {
    (m.phase == SETUP || m.phase == GENERATE ==> m.env == "none")
    && (m.env == "none" || IsEnvironment(m.env))
  }

  /** The state file, read by a fresh manager, gives back the phase and
      environment held in memory, and the environment survives a rewrite. */
  predicate Persisted(m: Machine) {
    m.stateFile.Some? && Load(m.stateFile.value, Defaults) == Record(m.phase, m.env) && Storable(m.env)
  }

  /** The three environment names the table uses are storable. */
  lemma KnownEnvironmentsStorable(env: string)
    requires env == "none" || IsEnvironment(env)
    ensures Storable(env)
  {
    assert "none"[3] == 'e' && "pre-prod"[7] == 'd' && "prod"[3] == 'd';
  }

  /** Every menu round keeps the machine consistent. */
  lemma NextKeepsConsistent(m: Machine, choice: nat, name: string, answer: string, host: Host)
    requires Consistent(m)
    ensures Consistent(Next(m, choice, name, answer, host).after)
  {
    var e := Next(m, choice, name, answer, host);
    if e.after.phase != m.phase || e.after.env != m.env || e.after.stateFile != m.stateFile {
      var mv := Route(m.phase, m.env, choice).value;
      assert e.after.phase == mv.phase && e.after.env == mv.env;
    }
  }

  /** Every menu round keeps the state file in step with memory: what a
      round commits reads back as the new phase and environment. */
  lemma NextKeepsPersisted(m: Machine, choice: nat, name: string, answer: string, host: Host)
    requires Persisted(m)
    ensures Persisted(Next(m, choice, name, answer, host).after)
  {
    var e := Next(m, choice, name, answer, host);
    if e.after.phase != m.phase || e.after.env != m.env || e.after.stateFile != m.stateFile {
      var mv := Route(m.phase, m.env, choice).value;
      assert e.after.phase == mv.phase && e.after.env == mv.env;
      assert e.after.stateFile == Some(Serialize(Record(mv.phase, mv.env)));
      if mv.env != m.env {
        KnownEnvironmentsStorable(mv.env);
      }
      RoundTrip(Record(mv.phase, mv.env), Defaults);
    }
  }

  /** In DEPLOY, entry 1 is the deployment of the held environment: the
      round launches what it launches and moves to DESTROY only if it succeeded. */
  lemma DeployEntry(m: Machine, name: string, answer: string, host: Host)
    requires m.phase == DEPLOY
    ensures var a := DeployAttempt(m.projectDir, m.env, answer, host);
            Next(m, 1, name, answer, host) == Effect(if a.ok then Save(m, DESTROY, m.env) else m, a.ran, false)
  {
    assert Route(DEPLOY, m.env, 1) == Some(Move(RunDeploy, DESTROY, m.env));
    NextFollowsRoute(m, 1, name, answer, host, Move(RunDeploy, DESTROY, m.env));
    assert m.(projectDir := m.projectDir) == m;
  }

  /** A deployment asked for in DEPLOY and declined at the prompt after
      init, validate and plan succeeded keeps DEPLOY and its environment
      and never launches apply. */
  lemma DeclinedApplyKeepsState(m: Machine, name: string, answer: string, host: Host)
    requires m.phase == DEPLOY && IsEnvironment(m.env) && EnvDir(m.projectDir, m.env) in host.paths
    requires var dir := EnvDir(m.projectDir, m.env);
             host.passes(Init(dir)) && host.passes(Validate(dir)) && host.passes(Plan(dir))
    requires !IsYes(answer)
    ensures var dir := EnvDir(m.projectDir, m.env);
            var e := Next(m, 1, name, answer, host);
            e.after == m && e.ran == [Init(dir), Validate(dir), Plan(dir)] && Apply(dir) !in e.ran
  {
    DeployEntry(m, name, answer, host);
    DeclinedDeploy(m.projectDir, m.env, answer, host);
    ApplyIsDistinct(EnvDir(m.projectDir, m.env));
  }

  /** A successful setup in SETUP moves to GENERATE with environment `none`. */
  lemma SetupMovesToGenerate(m: Machine, name: string, answer: string, host: Host)
    requires m.phase == SETUP && SetupAttempt(name, m.projectDir, host).ok
    ensures var e := Next(m, 1, name, answer, host);
            e.after.phase == GENERATE && e.after.env == "none"
  {
    assert Route(SETUP, m.env, 1) == Some(Move(RunSetup, GENERATE, "none"));
    assert Perform(m, RunSetup, name, answer, host).ok;
  }

  /** In GENERATE, entry 1 moves to DEPLOY with whatever environment is held. */
  lemma GenerateProceedsToDeploy(m: Machine, name: string, answer: string, host: Host)
    requires m.phase == GENERATE
    ensures Next(m, 1, name, answer, host) == Effect(Save(m, DEPLOY, m.env), [], false)
  {
    assert Route(GENERATE, m.env, 1) == Some(Move(Proceed, DEPLOY, m.env));
  }

  /** In DEPLOY with environment `none`, the deploy entry fails before
      launching anything. */
  lemma DeployWithoutEnvironmentFails(m: Machine, name: string, answer: string, host: Host)
    requires m.phase == DEPLOY && m.env == "none"
    ensures Next(m, 1, name, answer, host) == Effect(m, [], false)
  {
    assert Route(DEPLOY, "none", 1) == Some(Move(RunDeploy, DESTROY, "none"));
    assert !IsEnvironment("none");
    assert Perform(m, RunDeploy, name, answer, host) == Performed(false, [], m.projectDir);
  }

  /** The path SETUP 1, GENERATE 1 reaches DEPLOY with environment `none`,
      from where the deploy entry can never succeed: it launches nothing and
      leaves the machine as it is. */
  lemma DeployAfterGenerateIsDeadEnd(m: Machine, name: string, answer: string, host: Host)
    requires m.phase == SETUP && SetupAttempt(name, m.projectDir, host).ok
    ensures var e1 := Next(m, 1, name, answer, host);
            var e2 := Next(e1.after, 1, name, answer, host);
            var e3 := Next(e2.after, 1, name, answer, host);
            e1.after.phase == GENERATE && e2.after.phase == DEPLOY && e2.after.env == "none"
            && e3.after == e2.after && e3.ran == []
  {
    var e1 := Next(m, 1, name, answer, host);
    SetupMovesToGenerate(m, name, answer, host);
    GenerateProceedsToDeploy(e1.after, name, answer, host);
    var e2 := Next(e1.after, 1, name, answer, host);
    DeployWithoutEnvironmentFails(e2.after, name, answer, host);
  }

  /** One round of the menu: the response typed at the prompt and the text
      typed at the prompts of the procedure it runs, if any. */
  datatype Turn = Turn(response: string, name: string, answer: string)

  /** How a session ends: `exit(code)`, or the input runs out. */
  datatype End = Exited(code: nat) | InputExhausted

  /** The menu's reading of a response: stripped, it must be a non-empty
      run of digits, taken as a decimal number; anything else is rejected. */
  function ParseChoice(response: string): (c: Option<nat>)
    ensures c.Some? <==> AllDigits(Strip(response))
    ensures c.Some? && |Strip(response)| == 1 ==> c.value == Strip(response)[0] as int - '0' as int
  {
    var t := Strip(response);
    if AllDigits(t) then Some(DecimalValue(t)) else None
  }

  /** What a session or a part of it produces. */
  datatype Outcome = Outcome(final: Machine, ran: seq<Command>, end: End)

  /** The menu loop over the remaining turns: a rejected response re-prompts
      without change, 0 ends the session, any other choice is one round. */
  function Drive(m: Machine, turns: seq<Turn>, host: Host): Outcome
    decreases |turns|
  {
    if turns == [] then Outcome(m, [], InputExhausted)
    else
      match ParseChoice(turns[0].response)
      case None => Drive(m, turns[1..], host)
      case Some(c) =>
        var e := Next(m, c, turns[0].name, turns[0].answer, host);
        if e.exit then Outcome(m, [], Exited(0))
        else
          var rest := Drive(e.after, turns[1..], host);
          Outcome(rest.final, e.ran + rest.ran, rest.end)
  }

  /** `load_state` on a manager holding `m`: an absent file is created as
      SETUP/`none`; an existing one is scanned line by line. */
  function LoadMachine(m: Machine): Machine {
    match m.stateFile
    case None => Save(m, SETUP, "none")
    case Some(text) =>
      var r := Load(text, Record(m.phase, m.env));
      m.(phase := r.phase, env := r.env)
  }

  /** An absent state file is created holding SETUP/`none`, and that
      record reads back as SETUP/`none` whatever the fields held before. */
  lemma MissingFileCreated(m: Machine, r: Record)
    requires m.stateFile.None?
    ensures var l := LoadMachine(m);
            l.phase == SETUP && l.env == "none" && l.stateFile == Some(Serialize(Defaults))
            && Load(l.stateFile.value, r) == Defaults
  {
    RoundTrip(Defaults, r);
  }

  /** A manager as its constructor leaves it, next to an existing or absent state file. */
  function Fresh(stateFile: Option<string>): Machine {
    Machine(SETUP, "none", "", stateFile)
  }

  /** `run`: load the state, set the project up (exit 1 if that fails),
      then enter the menu loop. */
  function Session(stateFile: Option<string>, name: string, turns: seq<Turn>, host: Host): Outcome {
    var m := LoadMachine(Fresh(stateFile));
    if m.projectDir == "" || m.projectDir !in host.paths then
      var s := SetupAttempt(name, m.projectDir, host);
      var m1 := m.(projectDir := s.projectDir);
      if !s.ok then Outcome(m1, s.ran, Exited(1))
      else
        var o := Drive(m1, turns, host);
        Outcome(o.final, s.ran + o.ran, o.end)
    else Drive(m, turns, host)
  }

  /** Unfolding step of `Drive`: choosing 0 ends the loop at once, and later turns are never read. */
  lemma ExitStopsTheLoop(m: Machine, turns: seq<Turn>, host: Host)
    requires turns != [] && ParseChoice(turns[0].response) == Some(0)
    ensures Drive(m, turns, host) == Outcome(m, [], Exited(0))
  {
  }

  /** Unfolding step of `Drive`: a rejected response is skipped, and the loop goes on with the next turn. */
  lemma RejectedResponseSkipped(m: Machine, turns: seq<Turn>, host: Host)
    requires turns != [] && ParseChoice(turns[0].response).None?
    ensures Drive(m, turns, host) == Drive(m, turns[1..], host)
  {
  }

  /** Unfolding step of `Drive`: any other choice is one round of
      `handle_choice`, whose commands come before those of the rest of the loop. */
  lemma ChoiceIsOneRound(m: Machine, turns: seq<Turn>, c: nat, host: Host)
    requires turns != [] && ParseChoice(turns[0].response) == Some(c) && c != 0
    ensures var e := Next(m, c, turns[0].name, turns[0].answer, host);
            var rest := Drive(e.after, turns[1..], host);
            Drive(m, turns, host) == Outcome(rest.final, e.ran + rest.ran, rest.end)
  {
  }

  /** The menu loop keeps the machine consistent and the state file in
      step with memory, whatever is typed. */
  lemma {:induction false} DrivePreserves(m: Machine, turns: seq<Turn>, host: Host)
    ensures Consistent(m) ==> Consistent(Drive(m, turns, host).final)
    ensures Persisted(m) ==> Persisted(Drive(m, turns, host).final)
    decreases |turns|
  {
    if turns != [] {
      match ParseChoice(turns[0].response)
      case None =>
        DrivePreserves(m, turns[1..], host);
      case Some(c) =>
        var e := Next(m, c, turns[0].name, turns[0].answer, host);
        if Consistent(m) { NextKeepsConsistent(m, c, turns[0].name, turns[0].answer, host); }
        if Persisted(m) { NextKeepsPersisted(m, c, turns[0].name, turns[0].answer, host); }
        DrivePreserves(e.after, turns[1..], host);
    }
  }

  /** A session ends with exit code 1 exactly when the start-up setup
      fails, and the menu is never reached then. */
  lemma StartupFailure(stateFile: Option<string>, name: string, turns: seq<Turn>, host: Host)
    ensures var o := Session(stateFile, name, turns, host);
            o.end == Exited(1) <==> !SetupAttempt(name, "", host).ok
    ensures var o := Session(stateFile, name, turns, host);
            o.end == Exited(1) ==> o.ran == SetupAttempt(name, "", host).ran
  {
    var m := LoadMachine(Fresh(stateFile));
    assert m.projectDir == "";
    var s := SetupAttempt(name, "", host);
    if s.ok {
      var o := Drive(m.(projectDir := s.projectDir), turns, host);
      assert o.end != Exited(1) by { DriveEnds(m.(projectDir := s.projectDir), turns, host); }
    }
  }

  /** Some response among `turns` reads as the choice 0. */
  predicate ZeroTyped(turns: seq<Turn>) {
    exists i :: 0 <= i < |turns| && ParseChoice(turns[i].response) == Some(0)
  }

  /** A 0 is typed in `turns` exactly when it is typed first or later. */
  lemma ZeroTypedCons(turns: seq<Turn>)
    requires turns != []
    ensures ZeroTyped(turns) <==> ParseChoice(turns[0].response) == Some(0) || ZeroTyped(turns[1..])
  {
    if ZeroTyped(turns[1..]) {
      var i :| 0 <= i < |turns[1..]| && ParseChoice(turns[1..][i].response) == Some(0);
      assert ParseChoice(turns[i + 1].response) == Some(0);
    }
    if ZeroTyped(turns) {
      var i :| 0 <= i < |turns| && ParseChoice(turns[i].response) == Some(0);
      if i > 0 {
        assert turns[1..][i - 1] == turns[i];
      }
    }
  }

  /** The menu loop only ends by exhausting its input or with exit code 0,
      and it exits exactly when some response reads as the choice 0. */
  lemma {:induction false} DriveEnds(m: Machine, turns: seq<Turn>, host: Host)
    ensures Drive(m, turns, host).end in {InputExhausted, Exited(0)}
    ensures Drive(m, turns, host).end == Exited(0) <==> ZeroTyped(turns)
    decreases |turns|
  {
    if turns != [] {
      ZeroTypedCons(turns);
      match ParseChoice(turns[0].response)
      case None =>
        RejectedResponseSkipped(m, turns, host);
        DriveEnds(m, turns[1..], host);
      case Some(c) =>
        if c == 0 {
          ExitStopsTheLoop(m, turns, host);
        } else {
          var after := Next(m, c, turns[0].name, turns[0].answer, host).after;
          ChoiceIsOneRound(m, turns, c, host);
          DriveEnds(after, turns[1..], host);
        }
    }
  }

  /** Right after `load_state`, the state file gives back what was loaded,
      when the file held a readable record or did not exist. */
  lemma LoadedPersisted(stateFile: Option<string>)
    requires stateFile.Some? ==> Storable(Load(stateFile.value, Defaults).env)
    ensures Persisted(LoadMachine(Fresh(stateFile)))
  {
    if stateFile.None? {
      RoundTrip(Defaults, Defaults);
      KnownEnvironmentsStorable("none");
    } else {
      LoadIdempotent(stateFile.value, Defaults);
    }
  }

  /** After any session that started from a readable record (or none), the
      state file gives back the final phase and environment to the next
      session. */
  lemma SessionPersists(stateFile: Option<string>, name: string, turns: seq<Turn>, host: Host)
    requires stateFile.Some? ==> Storable(Load(stateFile.value, Defaults).env)
    ensures Persisted(Session(stateFile, name, turns, host).final)
  {
    var m := LoadMachine(Fresh(stateFile));
    LoadedPersisted(stateFile);
    var s := SetupAttempt(name, m.projectDir, host);
    DrivePreserves(m.(projectDir := s.projectDir), turns, host);
    DrivePreserves(m, turns, host);
  }
}
