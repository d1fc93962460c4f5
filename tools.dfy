/** The external collaborators as the workflow sees them: the commands it
    launches, the filesystem paths it tests and the success of each launch. */
module Tools {
  import opened Text

  /** One `subprocess.run` call: its argument vector and working directory. */
  datatype Command = Command(argv: seq<string>, cwd: string)

  /** The machine the workflow runs on: the paths that exist and, for each
      command, whether it exits with status zero. */
  datatype Host = Host(paths: set<string>, passes: Command -> bool)

  const AutomationScriptDir := "/home/zonzo/my_automation_scripts"
  const WorkDir := "/home/zonzo/workindir"

  /** The project bootstrap script, run from the workspace root. */
  function Bootstrap(): Command {
    Command([Join(AutomationScriptDir, "set_terraform_env.sh")], WorkDir)
  }

  /** Where the template generator for `env` lives. */
  function GeneratorScript(env: string): string {
    Join(AutomationScriptDir, "generate_" + env + "_templates.sh")
  }

  /** The template generator for `env`, run inside the project. */
  function Generator(env: string, projectDir: string): Command {
    Command([GeneratorScript(env)], projectDir)
  }

  /** `terraform fmt -recursive` over the project. */
  function Format(projectDir: string): Command {
    Command(["terraform", "fmt", "-recursive"], projectDir)
  }

  /** `<project>/environments/<env>`, where the Terraform commands run. */
  function EnvDir(projectDir: string, env: string): string {
    Join(Join(projectDir, "environments"), env)
  }

  function Init(envDir: string): Command {
    Command(["terraform", "init", "-backend-config=backend.conf"], envDir)
  }

  function Validate(envDir: string): Command {
    Command(["terraform", "validate"], envDir)
  }

  function Plan(envDir: string): Command {
    Command(["terraform", "plan", "-out=tfplan"], envDir)
  }

  function Apply(envDir: string): Command {
    Command(["terraform", "apply", "tfplan"], envDir)
  }

  function PlanDestroy(envDir: string): Command {
    Command(["terraform", "plan", "-destroy", "-out=destroy_plan"], envDir)
  }

  function ApplyDestroy(envDir: string): Command {
    Command(["terraform", "apply", "destroy_plan"], envDir)
  }

  /** Apply differs from the three commands that prepare it. */
  lemma ApplyIsDistinct(envDir: string)
    ensures Apply(envDir) != Init(envDir) && Apply(envDir) != Validate(envDir) && Apply(envDir) != Plan(envDir)
  {
    assert |Apply(envDir).argv[1]| == 5 && |Init(envDir).argv[1]| == 4 && |Plan(envDir).argv[1]| == 4;
    assert |Validate(envDir).argv| == 2;
  }

  /** Every command of `cmds` exits with status zero. */
  predicate AllPass(cmds: seq<Command>, host: Host) {
    forall i :: 0 <= i < |cmds| ==> host.passes(cmds[i])
  }

  /** Traces are concatenated associatively. */
  lemma AppendAssociates(a: seq<Command>, b: seq<Command>, c: seq<Command>)
    ensures (a + b) + c == a + (b + c)
  {
  }
}
