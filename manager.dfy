/** `ProjectManager`: the object that holds the current phase, the selected
    environment and the project directory, keeps the state file up to date
    and runs the action procedures. Each method is proved to do what the
    matching specification in Record, Procedures or Transitions says. */
module Manager {
  import opened Wrappers
  import opened Text
  import opened Phases
  import opened Record
  import opened Tools
  import opened Procedures
  import opened Transitions

  class ProjectManager {
    var currentState: State
    var selectedEnv: string
    var projectDir: string
    /** The contents of the state file; None while the file does not exist. */
    var stateFile: Option<string>

    /** The manager's fields as one value. */
    function View(): Machine
      reads this
    {
      Machine(currentState, selectedEnv, projectDir, stateFile)
    }

    /** A manager in SETUP with environment `none` and no project
        directory, next to a state file that may already exist. */
    constructor (existing: Option<string>)
      ensures View() == Fresh(existing)
    {
      currentState := SETUP;
      selectedEnv := "none";
      projectDir := "";
      stateFile := existing;
    }

    /** `save_state`: both fields change and the file is rewritten whole. */
    method SaveState(state: State, env: string)
      modifies this
      ensures View() == Save(old(View()), state, env)
    {
      currentState := state;
      selectedEnv := env;
      stateFile := Some(Serialize(Record(state, env)));
    }

    /** `load_state`: creates an absent file as SETUP/`none`; otherwise
        scans its lines in order, each keyed line overwriting its field. */
    method LoadState()
      modifies this
      ensures View() == LoadMachine(old(View()))
    {
      match stateFile {
        case None =>
          SaveState(SETUP, "none");
        case Some(text) =>
          var lines := Lines(text);
          ghost var loaded := Scan(lines, Record(currentState, selectedEnv));
          var i := 0;
          while i < |lines|
            invariant 0 <= i <= |lines|
            invariant projectDir == old(projectDir) && stateFile == old(stateFile)
            invariant Scan(lines[i..], Record(currentState, selectedEnv)) == loaded
          {
            ghost var before := Record(currentState, selectedEnv);
            var line := lines[i];
            if StartsWith(line, StateKey) {
              currentState := FromString(Value(line));
            } else if StartsWith(line, EnvKey) {
              selectedEnv := Value(line);
            }
            assert Record(currentState, selectedEnv) == ApplyLine(before, line);
            ScanStep(lines, i, before);
            i := i + 1;
          }
          assert lines[i..] == [];
      }
    }

    /** `verify_project_structure`: false for an unset project directory,
        otherwise true exactly when every required subdirectory exists;
        the check stops at the first missing one. */
    method VerifyProjectStructure(host: Host) returns (ok: bool)
      ensures ok == WellStructured(projectDir, host.paths)
    {
      var dir := projectDir;
      if dir == "" {
        return false;
      }
      var i := 0;
      while i < |RequiredDirs|
        invariant 0 <= i <= |RequiredDirs|
        invariant forall j :: 0 <= j < i ==> Join(dir, RequiredDirs[j]) in host.paths
      {
        if Join(dir, RequiredDirs[i]) !in host.paths {
          return false;
        }
        i := i + 1;
      }
      return true;
    }

    /** `setup_project` with `name` typed at its prompt. */
    method SetupProject(name: string, host: Host) returns (ok: bool, ran: seq<Command>)
      modifies this`projectDir
      ensures Setup(ok, ran, projectDir) == SetupAttempt(name, old(projectDir), host)
    {
      var dirName := Strip(name);
      if dirName == [] {
        return false, [];
      }
      projectDir := Join(WorkDir, dirName);
      if projectDir in host.paths {
        ok := VerifyProjectStructure(host);
        return ok, [];
      }
      ran := [Bootstrap()];
      ok := host.passes(Bootstrap());
    }

    /** `format_terraform`. */
    method FormatTerraform(host: Host) returns (ok: bool, ran: seq<Command>)
      ensures Attempt(ok, ran) == FormatAttempt(projectDir, host)
    {
      ran := [Format(projectDir)];
      ok := host.passes(Format(projectDir));
    }

    /** `generate_environment(env)`. */
    method GenerateEnvironment(env: string, host: Host) returns (ok: bool, ran: seq<Command>)
      ensures Attempt(ok, ran) == GenerateAttempt(projectDir, env, host)
    {
      var dir := projectDir;
      if !IsEnvironment(env) {
        return false, [];
      }
      if GeneratorScript(env) !in host.paths {
        return false, [];
      }
      ran := [Generator(env, dir)];
      if !host.passes(Generator(env, dir)) {
        return false, ran;
      }
      var formatted, formatRan := FormatTerraform(host);
      ran := ran + formatRan;
      ok := formatted;
    }

    /** `deploy_environment(env)` with `answer` typed at its confirmation prompt. */
    method DeployEnvironment(env: string, answer: string, host: Host) returns (ok: bool, ran: seq<Command>)
      ensures Attempt(ok, ran) == DeployAttempt(projectDir, env, answer, host)
    {
      var dir := projectDir;
      if !IsEnvironment(env) {
        return false, [];
      }
      var envDir := EnvDir(dir, env);
      if envDir !in host.paths {
        return false, [];
      }
      ran := [Init(envDir)];
      if !host.passes(Init(envDir)) {
        return false, ran;
      }
      ran := [Init(envDir), Validate(envDir)];
      if !host.passes(Validate(envDir)) {
        return false, ran;
      }
      ran := [Init(envDir), Validate(envDir), Plan(envDir)];
      if !host.passes(Plan(envDir)) {
        return false, ran;
      }
      if IsYes(answer) {
        ran := DeploySteps(envDir);
        ok := host.passes(Apply(envDir));
        return;
      }
      ok := false;
    }

    /** `destroy_environment(env)` with `answer` typed at its confirmation prompt. */
    method DestroyEnvironment(env: string, answer: string, host: Host) returns (ok: bool, ran: seq<Command>)
      ensures Attempt(ok, ran) == DestroyAttempt(projectDir, env, answer, host)
    {
      var dir := projectDir;
      if !IsEnvironment(env) {
        return false, [];
      }
      var envDir := EnvDir(dir, env);
      if envDir !in host.paths {
        return false, [];
      }
      ran := [PlanDestroy(envDir)];
      if !host.passes(PlanDestroy(envDir)) {
        return false, ran;
      }
      if IsYes(answer) {
        ran := DestroySteps(envDir);
        ok := host.passes(ApplyDestroy(envDir));
        return;
      }
      ok := false;
    }

    /** `handle_choice(choice)`, with `name` and `answer` typed at the
        prompts of the procedure the choice runs. */
    method HandleChoice(choice: nat, name: string, answer: string, host: Host) returns (exit: bool, ran: seq<Command>)
      modifies this
      ensures Effect(View(), ran, exit) == Next(old(View()), choice, name, answer, host)
    {
      if choice == 0 {
        return true, [];
      }
      exit := false;
      match currentState {
        case SETUP => ran := HandleInSetup(choice, name, answer, host);
        case GENERATE => ran := HandleInGenerate(choice, name, answer, host);
        case DEPLOY => ran := HandleInDeploy(choice, name, answer, host);
        case DESTROY => ran := HandleInDestroy(choice, name, answer, host);
      }
    }

    /** The SETUP branch of `handle_choice`. */
    method HandleInSetup(choice: nat, name: string, answer: string, host: Host) returns (ran: seq<Command>)
      requires currentState == SETUP && choice != 0
      modifies this
      ensures Effect(View(), ran, false) == Next(old(View()), choice, name, answer, host)
    {
      ghost var m := View();
      ran := [];
      var ok: bool;
      if choice == 1 {
        NextFollowsRoute(m, choice, name, answer, host, Move(RunSetup, GENERATE, "none"));
        ok, ran := SetupProject(name, host);
        if ok { SaveState(GENERATE, "none"); }
      } else if choice == 2 {
        NextFollowsRoute(m, choice, name, answer, host, Move(RunGenerate("pre-prod"), DEPLOY, "pre-prod"));
        ok, ran := GenerateEnvironment("pre-prod", host);
        if ok { SaveState(DEPLOY, "pre-prod"); }
      } else if choice == 3 {
        NextFollowsRoute(m, choice, name, answer, host, Move(RunGenerate("prod"), DEPLOY, "prod"));
        ok, ran := GenerateEnvironment("prod", host);
        if ok { SaveState(DEPLOY, "prod"); }
      }
    }

    /** The GENERATE branch of `handle_choice`: plain moves, in which the
        typed text and the host play no part. */
    method HandleInGenerate(choice: nat, name: string, answer: string, host: Host) returns (ran: seq<Command>)
      requires currentState == GENERATE && choice != 0
      modifies this
      ensures Effect(View(), ran, false) == Next(old(View()), choice, name, answer, host)
    {
      ran := [];
      if choice == 1 {
        SaveState(DEPLOY, selectedEnv);
      } else if choice == 2 {
        SaveState(SETUP, "none");
      }
    }

    /** The DEPLOY branch of `handle_choice`. */
    method HandleInDeploy(choice: nat, name: string, answer: string, host: Host) returns (ran: seq<Command>)
      requires currentState == DEPLOY && choice != 0
      modifies this
      ensures Effect(View(), ran, false) == Next(old(View()), choice, name, answer, host)
    {
      ghost var m := View();
      ran := [];
      var ok: bool;
      if choice == 1 {
        NextFollowsRoute(m, choice, name, answer, host, Move(RunDeploy, DESTROY, m.env));
        ok, ran := DeployEnvironment(selectedEnv, answer, host);
        if ok { SaveState(DESTROY, selectedEnv); }
      } else if choice == 2 {
        SaveState(DESTROY, selectedEnv);
      } else if choice == 3 {
        SaveState(SETUP, "none");
      }
    }

    /** The DESTROY branch of `handle_choice`. */
    method HandleInDestroy(choice: nat, name: string, answer: string, host: Host) returns (ran: seq<Command>)
      requires currentState == DESTROY && choice != 0
      modifies this
      ensures Effect(View(), ran, false) == Next(old(View()), choice, name, answer, host)
    {
      ghost var m := View();
      ran := [];
      var ok: bool;
      if choice == 1 {
        NextFollowsRoute(m, choice, name, answer, host, Move(RunDestroy, SETUP, "none"));
        ok, ran := DestroyEnvironment(selectedEnv, answer, host);
        if ok { SaveState(SETUP, "none"); }
      } else if choice == 2 {
        SaveState(SETUP, "none");
      } else if choice == 3 {
        SaveState(DEPLOY, selectedEnv);
      }
    }

    /** `show_menu` and the `handle_choice` calls it alternates with, as a
        loop over the turns: a response that is not a number re-prompts,
        0 exits with code 0, any other number is one round. */
    method ShowMenu(turns: seq<Turn>, host: Host) returns (end: End, ran: seq<Command>)
      modifies this
      ensures Outcome(View(), ran, end) == Drive(old(View()), turns, host)
    {
      ran := [];
      var i := 0;
      while i < |turns|
        invariant 0 <= i <= |turns|
        invariant var rest := Drive(View(), turns[i..], host);
                  Outcome(rest.final, ran + rest.ran, rest.end) == Drive(old(View()), turns, host)
      {
        ghost var rest := turns[i..];
        assert rest[0] == turns[i] && rest[1..] == turns[i + 1..];
        var choice := ParseChoice(turns[i].response);
        if choice.Some? {
          ghost var before := View();
          var exit, stepRan := HandleChoice(choice.value, turns[i].name, turns[i].answer, host);
          if exit {
            ExitStopsTheLoop(before, rest, host);
            return Exited(0), ran;
          }
          ChoiceIsOneRound(before, rest, choice.value, host);
          AppendAssociates(ran, stepRan, Drive(View(), turns[i + 1..], host).ran);
          ran := ran + stepRan;
        } else {
          RejectedResponseSkipped(View(), rest, host);
        }
        i := i + 1;
      }
      assert turns[i..] == [];
      end := InputExhausted;
    }

    /** `run` on a freshly constructed manager: load the state, set the
        project up (exit code 1 if that fails), then show the menu. */
    method Run(name: string, turns: seq<Turn>, host: Host) returns (end: End, ran: seq<Command>)
      requires View() == Fresh(stateFile)
      modifies this
      ensures Outcome(View(), ran, end) == Session(old(stateFile), name, turns, host)
    {
      LoadState();
      var setupRan := [];
      if projectDir == "" || projectDir !in host.paths {
        var ok;
        ok, setupRan := SetupProject(name, host);
        if !ok {
          return Exited(1), setupRan;
        }
      }
      var menuRan;
      end, menuRan := ShowMenu(turns, host);
      ran := setupRan + menuRan;
    }
  }
}
