/** What each action procedure of the project manager does, as a value:
    whether it reports success and which external commands it launches, in
    order. The filesystem and the command outcomes come from the `Host`;
    the text the user types is a parameter. */
module Procedures {
  import opened Text
  import opened Tools

  /** The subdirectories a usable project must contain. */
  const RequiredDirs: seq<string> :=
    ["environments/pre-prod", "environments/prod", "modules/networking", "modules/compute", "modules/logging"]

  /** The only environment names the generate, deploy and destroy actions accept. */
  predicate IsEnvironment(env: string) {
    env == "pre-prod" || env == "prod"
  }

  /** The verdict of `verify_project_structure`: a project directory is
      set and every required subdirectory exists under it. */
  predicate WellStructured(projectDir: string, paths: set<string>) {
    projectDir != "" && forall i :: 0 <= i < |RequiredDirs| ==> Join(projectDir, RequiredDirs[i]) in paths
  }

  /** A procedure's outcome: its return value and the commands it launched. */
  datatype Attempt = Attempt(ok: bool, ran: seq<Command>)

  /** `setup_project` also leaves a (possibly new) project directory behind. */
  datatype Setup = Setup(ok: bool, ran: seq<Command>, projectDir: string)

  /** The project directory a typed project name designates. */
  function ProjectDirFor(name: string): string {
    Join(WorkDir, Strip(name))
  }

  /** `setup_project` with `name` typed at its prompt: an empty name fails
      at once; an existing directory is accepted exactly when it is well
      structured, without running anything; only a missing directory runs
      the bootstrap script, whose success decides the result. */
  function SetupAttempt(name: string, projectDir: string, host: Host): (r: Setup)
    ensures Strip(name) == [] ==> r == Setup(false, [], projectDir)
    ensures Strip(name) != [] ==> r.projectDir == ProjectDirFor(name)
    ensures r.ran == [] || (r.ran == [Bootstrap()] && r.projectDir !in host.paths)
    ensures Strip(name) != [] && r.projectDir in host.paths ==>
              r.ran == [] && r.ok == WellStructured(r.projectDir, host.paths)
    ensures Strip(name) != [] && r.projectDir !in host.paths ==>
              r.ran == [Bootstrap()] && r.ok == host.passes(Bootstrap())
  {
    if Strip(name) == [] then Setup(false, [], projectDir)
    else
      var dir := ProjectDirFor(name);
      if dir in host.paths then Setup(WellStructured(dir, host.paths), [], dir)
      else Setup(host.passes(Bootstrap()), [Bootstrap()], dir)
  }

  /** `format_terraform`: one `terraform fmt` run decides the result. */
  function FormatAttempt(projectDir: string, host: Host): Attempt {
    Attempt(host.passes(Format(projectDir)), [Format(projectDir)])
  }

  /** The commands `generate_environment` may launch, in order. */
  function GenerateSteps(projectDir: string, env: string): seq<Command> {
    [Generator(env, projectDir), Format(projectDir)]
  }

  /** `generate_environment(env)`: succeeds exactly when the environment is
      valid, its generator script exists, the generator succeeds and the
      formatting pass after it succeeds. Once the guards pass the generator
      runs, and the trace stops early only at a failing generator. */
  function GenerateAttempt(projectDir: string, env: string, host: Host): (r: Attempt)
    ensures !IsEnvironment(env) || GeneratorScript(env) !in host.paths ==> r == Attempt(false, [])
    ensures |r.ran| <= 2 && r.ran == GenerateSteps(projectDir, env)[..|r.ran|]
    ensures forall i :: 0 <= i < |r.ran| - 1 ==> host.passes(r.ran[i])
    ensures IsEnvironment(env) && GeneratorScript(env) in host.paths ==>
              |r.ran| > 0 && (|r.ran| == 2 || !host.passes(r.ran[0]))
    ensures r.ok <==> IsEnvironment(env) && GeneratorScript(env) in host.paths
                      && AllPass(GenerateSteps(projectDir, env), host)
  {
    if !IsEnvironment(env) then Attempt(false, [])
    else if GeneratorScript(env) !in host.paths then Attempt(false, [])
    else if !host.passes(Generator(env, projectDir)) then
      assert GenerateSteps(projectDir, env)[0] == Generator(env, projectDir);
      Attempt(false, [Generator(env, projectDir)])
    else
      var f := FormatAttempt(projectDir, host);
      assert GenerateSteps(projectDir, env)[1] == Format(projectDir);
      assert GenerateSteps(projectDir, env)[..2] == GenerateSteps(projectDir, env);
      Attempt(f.ok, [Generator(env, projectDir)] + f.ran)
  }

  /** Formatting is a required part of generation: a generation that
      succeeds followed by a failing format pass fails as a whole. */
  lemma FormatFailureFailsGeneration(projectDir: string, env: string, host: Host)
    requires IsEnvironment(env) && GeneratorScript(env) in host.paths
    requires host.passes(Generator(env, projectDir)) && !host.passes(Format(projectDir))
    ensures GenerateAttempt(projectDir, env, host) == Attempt(false, GenerateSteps(projectDir, env))
  {
  }

  /** The confirmation test: the stripped answer is one character that
      lowers to `y` (`ConfirmationTest` relates it to the source's
      `answer.strip().lower() == 'y'`). */
  predicate IsYes(answer: string) {
    var t := Strip(answer);
    |t| == 1 && LowerChar(t[0]) == 'y'
  }

  /** `IsYes` is the source's test `answer.strip().lower() == 'y'`, and it
      holds exactly for a lone `y` or `Y` with any surrounding whitespace. */
  lemma ConfirmationTest(answer: string)
    ensures IsYes(answer) <==> Lower(Strip(answer)) == "y"
    ensures IsYes(answer) <==> Strip(answer) == "y" || Strip(answer) == "Y"
  {
    var t := Strip(answer);
    if |t| == 1 {
      LowerAt(t, 0);
      assert Lower(t) == [LowerChar(t[0])];
      assert t == [t[0]];
    }
  }

  /** The commands `deploy_environment` may launch in `envDir`, in order. */
  function DeploySteps(envDir: string): seq<Command> {
    [Init(envDir), Validate(envDir), Plan(envDir), Apply(envDir)]
  }

  /** `deploy_environment(env)` with `answer` typed at its confirmation
      prompt: nothing runs for an invalid environment or a missing
      environment directory; otherwise init, validate and plan run in that
      order until one fails, and apply runs only after all three succeeded
      and the answer confirmed. A trace cut short ends at a failing command
      or at a declined confirmation after the plan. */
  function DeployAttempt(projectDir: string, env: string, answer: string, host: Host): (r: Attempt)
    ensures !IsEnvironment(env) || EnvDir(projectDir, env) !in host.paths ==> r == Attempt(false, [])
    ensures |r.ran| <= 4 && r.ran == DeploySteps(EnvDir(projectDir, env))[..|r.ran|]
    ensures forall i :: 0 <= i < |r.ran| - 1 ==> host.passes(r.ran[i])
    ensures |r.ran| == 4 ==> IsYes(answer)
    ensures IsEnvironment(env) && EnvDir(projectDir, env) in host.paths ==>
              |r.ran| > 0 && (|r.ran| == 4 || !host.passes(r.ran[|r.ran| - 1]) || (|r.ran| == 3 && !IsYes(answer)))
    ensures r.ok <==> IsEnvironment(env) && EnvDir(projectDir, env) in host.paths
                      && AllPass(DeploySteps(EnvDir(projectDir, env)), host) && IsYes(answer)
  {
    var dir := EnvDir(projectDir, env);
    var steps := DeploySteps(dir);
    assert steps[0] == Init(dir) && steps[1] == Validate(dir) && steps[2] == Plan(dir) && steps[3] == Apply(dir);
    if !IsEnvironment(env) || dir !in host.paths then Attempt(false, [])
    else if !host.passes(Init(dir)) then
      Attempt(false, [Init(dir)])
    else if !host.passes(Validate(dir)) then
      Attempt(false, [Init(dir), Validate(dir)])
    else if !host.passes(Plan(dir)) then
      Attempt(false, [Init(dir), Validate(dir), Plan(dir)])
    else if !IsYes(answer) then
      Attempt(false, [Init(dir), Validate(dir), Plan(dir)])
    else
      Attempt(host.passes(Apply(dir)), steps)
  }

  /** The commands `destroy_environment` may launch in `envDir`, in order. */
  function DestroySteps(envDir: string): seq<Command> {
    [PlanDestroy(envDir), ApplyDestroy(envDir)]
  }

  /** `destroy_environment(env)`: the same guards as deploying, then the
      destroy plan, and the destroy apply only after the plan succeeded
      and the answer confirmed. */
  function DestroyAttempt(projectDir: string, env: string, answer: string, host: Host): (r: Attempt)
    ensures !IsEnvironment(env) || EnvDir(projectDir, env) !in host.paths ==> r == Attempt(false, [])
    ensures |r.ran| <= 2 && r.ran == DestroySteps(EnvDir(projectDir, env))[..|r.ran|]
    ensures forall i :: 0 <= i < |r.ran| - 1 ==> host.passes(r.ran[i])
    ensures |r.ran| == 2 ==> IsYes(answer)
    ensures IsEnvironment(env) && EnvDir(projectDir, env) in host.paths ==>
              |r.ran| > 0 && (|r.ran| == 2 || !host.passes(r.ran[0]) || !IsYes(answer))
    ensures r.ok <==> IsEnvironment(env) && EnvDir(projectDir, env) in host.paths
                      && AllPass(DestroySteps(EnvDir(projectDir, env)), host) && IsYes(answer)
  {
    var dir := EnvDir(projectDir, env);
    var steps := DestroySteps(dir);
    assert steps[0] == PlanDestroy(dir) && steps[1] == ApplyDestroy(dir);
    assert steps[..1] == [PlanDestroy(dir)] && steps[..2] == steps;
    if !IsEnvironment(env) || dir !in host.paths then Attempt(false, [])
    else if !host.passes(PlanDestroy(dir)) then Attempt(false, [PlanDestroy(dir)])
    else if !IsYes(answer) then Attempt(false, [PlanDestroy(dir)])
    else Attempt(host.passes(ApplyDestroy(dir)), steps)
  }

  /** A declined confirmation after a successful plan: deployment fails,
      init, validate and plan have run and apply has not. */
  lemma DeclinedDeploy(projectDir: string, env: string, answer: string, host: Host)
    requires IsEnvironment(env) && EnvDir(projectDir, env) in host.paths
    requires var dir := EnvDir(projectDir, env);
             host.passes(Init(dir)) && host.passes(Validate(dir)) && host.passes(Plan(dir))
    requires !IsYes(answer)
    ensures var dir := EnvDir(projectDir, env);
            DeployAttempt(projectDir, env, answer, host) == Attempt(false, [Init(dir), Validate(dir), Plan(dir)])
  {
  }

  /** Generation succeeds whenever its script exists and both of its
      commands pass. */
  lemma GenerateSucceeds(projectDir: string, env: string, host: Host)
    requires IsEnvironment(env) && GeneratorScript(env) in host.paths
    requires host.passes(Generator(env, projectDir)) && host.passes(Format(projectDir))
    ensures GenerateAttempt(projectDir, env, host) == Attempt(true, GenerateSteps(projectDir, env))
  {
  }

  /** Deployment succeeds whenever its directory exists, all four commands
      pass and the answer confirms. */
  lemma DeploySucceeds(projectDir: string, env: string, answer: string, host: Host)
    requires IsEnvironment(env) && EnvDir(projectDir, env) in host.paths
    requires forall c :: c in DeploySteps(EnvDir(projectDir, env)) ==> host.passes(c)
    requires IsYes(answer)
    ensures DeployAttempt(projectDir, env, answer, host) == Attempt(true, DeploySteps(EnvDir(projectDir, env)))
  {
    var dir := EnvDir(projectDir, env);
    assert Init(dir) in DeploySteps(dir) && Validate(dir) in DeploySteps(dir);
    assert Plan(dir) in DeploySteps(dir) && Apply(dir) in DeploySteps(dir);
  }

  /** Destruction succeeds whenever its directory exists, both commands
      pass and the answer confirms. */
  lemma DestroySucceeds(projectDir: string, env: string, answer: string, host: Host)
    requires IsEnvironment(env) && EnvDir(projectDir, env) in host.paths
    requires forall c :: c in DestroySteps(EnvDir(projectDir, env)) ==> host.passes(c)
    requires IsYes(answer)
    ensures DestroyAttempt(projectDir, env, answer, host) == Attempt(true, DestroySteps(EnvDir(projectDir, env)))
  {
    var dir := EnvDir(projectDir, env);
    assert PlanDestroy(dir) in DestroySteps(dir) && ApplyDestroy(dir) in DestroySteps(dir);
  }
}
