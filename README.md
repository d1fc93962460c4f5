# Terraform project manager: a verified model

`create_project.py` is an interactive manager for a Terraform "landing
zone" project. It keeps the project in one of four lifecycle phases:

- `SETUP`
- `GENERATE`
- `DEPLOY`
- `DESTROY`

Together with the selected environment (`none`, `pre-prod` or `prod`),
the phase is persisted in a two-line `KEY=value` state file. The manager
shows a numbered menu for the current phase. Each choice runs an action
procedure:

- set up the project directory;
- generate an environment from templates, then `terraform fmt`;
- `terraform init`, `validate`, `plan`, then `apply` after a `y`
  confirmation;
- a destroy plan, then its apply after confirmation.

The new phase is saved only when the procedure succeeded.

This project models that core in Dafny and proves what it promises.

| file | contents |
|---|---|
| `wrappers.dfy` | `Option` |
| `phases.dfy` | the `State` enum and its soft lookup by name |
| `text.dfy` | the Python string operations the program relies on: `strip`, `split('=')`, line iteration over a file, `posixpath.join`, `lower`, `isdigit`/`int` |
| `tools.dfy` | the commands launched, and the `Host` |
| `procedures.dfy` | each action procedure as a value: its verdict and the commands it launched, in order |
| `record.dfy` | the state file: what `save_state` writes and the line scan of `load_state` |
| `transitions.dfy` | the per-phase transition table of `handle_choice`, one menu round, the menu loop and `run` |
| `manager.dfy` | the `ProjectManager` class with imperative methods; each is proved equal to its specification function above |

`Host` stands for the machine: the set of paths that exist and, for every
command, whether it exits with status 0. The text the user types is passed
in as parameters:

- the project name typed at start-up, a parameter of the session;
- a `Turn` per menu round, holding the response typed at the menu and the
  `name` and `answer` typed at the prompts of the procedure that round runs
  (the project-name prompt of setup, the confirmation of deploy or
  destroy).

Properties proved include:

- **Round trip.** `save_state` followed by `load_state` gives back the
  phase and the environment, for every environment value that survives
  `strip`, `split('=')` and line iteration.
- **Corrupt phase.** An unknown phase token loads as `SETUP` and keeps
  the environment.
- **Last line wins.** Later lines override earlier ones, and loading is
  idempotent.
- **Command traces.** Every procedure launches a prefix of its command
  sequence. It stops at the first failing command, and it launches
  `apply` only after the confirmation.
- **Failure containment.** A failing procedure leaves the phase, the
  environment and the state file unchanged.
- **Transition table.** Under a host on which everything succeeds, each
  menu entry commits exactly the move in the table.
- **Loop invariants.** The menu loop keeps the state consistent (`SETUP`
  and `GENERATE` carry `none`) and keeps the state file in step with
  memory.
- **How a session ends.** The modelled session ends `Exited(1)` exactly
  when the start-up setup fails. The menu loop ends `Exited(0)` exactly
  when a response reads as 0, and otherwise runs out of input. Crashes on
  uncaught exceptions also end the real process with status 1; they are
  not modelled (see "Left out").

One behaviour of the source is proved as it is. After `SETUP` 1
("Setup Project Structure"), `GENERATE` 1 ("Go to Deploy Menu") enters
`DEPLOY` with environment `none`. From there the deploy entry can never
succeed (`Transitions.DeployAfterGenerateIsDeadEnd`). The user has to go
back and generate an environment.

The environment read from the state file is modelled as the code reads it:
the text between the first and the second `=` of the stripped line, or to
its end, not only `none`, `pre-prod` or `prod`.

## Model

| member | source | states |
|---|---|---|
| Phases.Name | my_automation_scripts/create_project.py:7-11 | every phase has a non-empty member name |
| Phases.FromString | my_automation_scripts/create_project.py:13-19 | an exact member name gives that phase; any other token gives SETUP |
| Phases.NameRoundTrip | my_automation_scripts/create_project.py:13-19 | looking up a phase's own name gives back the phase |
| Phases.NameInjective | my_automation_scripts/create_project.py:7-11 | two phases have the same name exactly when they are equal |
| Text.Strip | my_automation_scripts/create_project.py:44 | definition: `rstrip` of `lstrip`; characterised through `TrimStart`, `TrimEnd` and `StripTrailing` |
| Text.TrimStart | my_automation_scripts/create_project.py:44 | `lstrip` removes exactly the leading whitespace: the result is a suffix starting with a non-space, and everything removed is whitespace |
| Text.TrimEnd | my_automation_scripts/create_project.py:44 | `rstrip` removes exactly the trailing whitespace: the result is a prefix ending with a non-space, and everything removed is whitespace |
| Text.TrimEndTrailing | my_automation_scripts/create_project.py:44 | whitespace appended after a non-blank end is exactly what `rstrip` removes |
| Text.StripTrailing | my_automation_scripts/create_project.py:44 | `strip` of a text with non-blank ends plus trailing whitespace gives back the text |
| Text.Split | my_automation_scripts/create_project.py:44 | `split` yields at least one piece, no piece holds the separator, and there is more than one piece exactly when the separator occurs |
| Text.SplitAfterHead | my_automation_scripts/create_project.py:44 | a separator-free head followed by the separator splits off as the first piece |
| Text.LineEnd | my_automation_scripts/create_project.py:41-42 | the first line ends just past the first newline, or at the end of the text |
| Text.Lines | my_automation_scripts/create_project.py:41-42 | file iteration yields lines with a newline, if any, only as the last character |
| Text.LinesCoverText | my_automation_scripts/create_project.py:41-42 | the lines concatenate back to exactly the file's text, and every line but the last ends in a newline, so a last line without one is yielded as it is |
| Text.LinesCons | my_automation_scripts/create_project.py:41-42 | a newline-terminated line in front of a text is the first line yielded |
| Text.Lower | my_automation_scripts/create_project.py:176 | `lower` keeps the length |
| Text.LowerAt | my_automation_scripts/create_project.py:176 | `lower` works character by character |
| Text.Join | my_automation_scripts/create_project.py:82 | definition of `posixpath.join` for two parts: an absolute second part replaces the first; otherwise one `/` is put between them unless the first is empty or already ends in `/` |
| Text.DecimalValue | my_automation_scripts/create_project.py:256 | `int` of a single digit is that digit's value |
| Record.Serialize | my_automation_scripts/create_project.py:54-56 | the file starts with the `DEPLOY_STATE=<name>` line and ends with a newline |
| Record.ApplyLine | my_automation_scripts/create_project.py:43-47 | definition: a `DEPLOY_STATE=` line sets the phase through the soft lookup, a `SELECTED_ENV=` line sets the environment, any other line changes nothing |
| Record.Scan | my_automation_scripts/create_project.py:42-47 | definition: the lines applied in file order; `LastLineWins` characterises it against the independent `Latest` |
| Record.Load | my_automation_scripts/create_project.py:40-47 | definition: the scan over the file's lines; `RoundTrip`, `CorruptPhase` and `LoadIdempotent` state its properties |
| Record.KeysExclusive | my_automation_scripts/create_project.py:43-47 | no line starts with both keys, so the `elif` order does not matter |
| Record.StripKeepsKey | my_automation_scripts/create_project.py:44 | stripping a keyed line keeps the key, so `split('=')[1]` always exists |
| Record.Value | my_automation_scripts/create_project.py:44-47 | the value read from a keyed line holds no `=` |
| Record.StripWritten | my_automation_scripts/create_project.py:44-56 | a written line with a storable value strips back to `KEY=value` |
| Record.ValueOfWritten | my_automation_scripts/create_project.py:44-56 | a written `KEY=value` line reads back as `value` |
| Record.TwoLines | my_automation_scripts/create_project.py:41-42 | the two written lines are read back as exactly those two lines |
| Record.WrittenLine | my_automation_scripts/create_project.py:55-56 | each written line is a single line ending in its newline |
| Record.ReadBack | my_automation_scripts/create_project.py:39-56 | a written record with storable fields loads as (lookup of the token, environment), whatever was held before |
| Record.RoundTrip | my_automation_scripts/create_project.py:39-56 | saving a phase and a storable environment, then loading, gives back exactly that pair |
| Record.CorruptPhase | my_automation_scripts/create_project.py:13-19 | an unknown phase token in the file loads as SETUP, with the environment as written |
| Record.LastLineWins | my_automation_scripts/create_project.py:42-47 | each field ends up as its last keyed line says, and keeps its previous value when no line names it |
| Record.LoadIdempotent | my_automation_scripts/create_project.py:39-47 | loading the same file twice leaves the fields as loading it once |
| Procedures.WellStructured | my_automation_scripts/create_project.py:58-74 | definition: the project directory is set and all five required subdirectories exist under it; `VerifyProjectStructure` is proved equal to it |
| Procedures.ProjectDirFor | my_automation_scripts/create_project.py:77-82 | definition: the stripped name joined under the work directory |
| Procedures.SetupAttempt | my_automation_scripts/create_project.py:76-102 | an empty name fails without change; an existing directory is accepted exactly when well structured, with nothing run; a missing one runs only the bootstrap script, whose status decides |
| Procedures.FormatAttempt | my_automation_scripts/create_project.py:125-139 | definition: one `terraform fmt -recursive` in the project, whose exit status is the verdict; `FormatFailureFailsGeneration` states its role in generation |
| Procedures.GenerateAttempt | my_automation_scripts/create_project.py:104-123 | an invalid environment or a missing script runs nothing; once the guards pass the generator runs, and format runs after it unless the generator failed; the trace is a prefix of generator then format with every command but the last passing; success iff both pass |
| Procedures.FormatFailureFailsGeneration | my_automation_scripts/create_project.py:116-120 | a successful generation followed by a failing format pass fails as a whole |
| Procedures.IsYes | my_automation_scripts/create_project.py:176-177 | definition of the confirmation; `ConfirmationTest` proves it equal to `strip().lower() == 'y'` |
| Procedures.ConfirmationTest | my_automation_scripts/create_project.py:176-177 | the confirmation holds iff the stripped, lowered answer is `y`, i.e. iff the stripped answer is `y` or `Y` |
| Procedures.DeployAttempt | my_automation_scripts/create_project.py:141-188 | guards run nothing; once they pass, init runs, and init, validate, plan, apply run as a prefix that ends only at a failing command, at a declined confirmation after plan, or complete; apply runs only after a confirmation; success iff all four pass and the answer confirms |
| Procedures.DestroyAttempt | my_automation_scripts/create_project.py:190-223 | guards run nothing; once they pass, plan-destroy runs, and apply-destroy follows unless the plan failed or the answer declined; the apply runs only after a confirmation; success iff both pass and the answer confirms |
| Procedures.DeclinedDeploy | my_automation_scripts/create_project.py:176-184 | a declined confirmation after a successful plan fails, having run init, validate and plan |
| Procedures.GenerateSucceeds | my_automation_scripts/create_project.py:104-123 | with the script present and both commands passing, generation succeeds, running both |
| Procedures.DeploySucceeds | my_automation_scripts/create_project.py:141-183 | with the directory present, all commands passing and a confirmation, deployment succeeds, running all four |
| Procedures.DestroySucceeds | my_automation_scripts/create_project.py:190-218 | with the directory present, both commands passing and a confirmation, destruction succeeds, running both |
| Tools.ApplyIsDistinct | my_automation_scripts/create_project.py:155-182 | apply is a different command from init, validate and plan |
| Transitions.OptionCount | my_automation_scripts/create_project.py:233-247 | definition: the number of numbered entries the menu lists in each phase (3, 2, 3, 3); `Route` handles exactly those |
| Transitions.Route | my_automation_scripts/create_project.py:266-307 | exactly the listed entries of each phase are handled; moves into SETUP or GENERATE reset the environment to `none`; every other move keeps it or selects the one generated; deploy and destroy act on the held environment |
| Transitions.Save | my_automation_scripts/create_project.py:51-56 | definition: both fields set and the file rewritten with the pair; `NextKeepsPersisted` and `RoundTrip` show the file reads back as that pair |
| Transitions.Perform | my_automation_scripts/create_project.py:266-307 | definition: the guarding procedure of each entry (setup, generate of the entry's environment, deploy or destroy of the held environment, or none) |
| Transitions.Next | my_automation_scripts/create_project.py:262-307 | 0 and only 0 requests exit; exit and unlisted choices change nothing and run nothing; a listed round launches exactly its procedure's commands and keeps the project directory that procedure leaves; its move (phase, environment and rewritten file) is committed exactly when the procedure succeeded |
| Transitions.FailureContainment | my_automation_scripts/create_project.py:266-307 | a failing procedure leaves phase, environment and state file unchanged, and only setup may replace the project directory |
| Transitions.TableOnSuccess | my_automation_scripts/create_project.py:266-307 | on a host where everything succeeds, each listed entry commits its move and rewrites the file with it |
| Transitions.NextKeepsConsistent | my_automation_scripts/create_project.py:266-307 | every round keeps SETUP/GENERATE at `none` and the environment among `none`, `pre-prod`, `prod` |
| Transitions.NextKeepsPersisted | my_automation_scripts/create_project.py:51-56 | after every round the state file loads back as the phase and environment in memory |
| Transitions.DeployEntry | my_automation_scripts/create_project.py:287-290 | DEPLOY entry 1 deploys the held environment and moves to DESTROY only on success |
| Transitions.DeclinedApplyKeepsState | my_automation_scripts/create_project.py:176-184 | in DEPLOY, declining after init, validate and plan succeed leaves the manager unchanged and never launches apply |
| Transitions.SetupMovesToGenerate | my_automation_scripts/create_project.py:267-269 | a successful setup in SETUP moves to GENERATE with `none` |
| Transitions.GenerateProceedsToDeploy | my_automation_scripts/create_project.py:280-281 | GENERATE entry 1 saves DEPLOY with the held environment and runs nothing |
| Transitions.DeployWithoutEnvironmentFails | my_automation_scripts/create_project.py:141-144 | in DEPLOY with `none`, the deploy entry runs nothing and changes nothing |
| Transitions.DeployAfterGenerateIsDeadEnd | my_automation_scripts/create_project.py:266-290 | SETUP 1 then GENERATE 1 reaches DEPLOY with `none`, from where deploying runs nothing and changes nothing |
| Transitions.ParseChoice | my_automation_scripts/create_project.py:252-256 | a response is accepted iff its stripped form is a non-empty run of digits; a single digit is taken at its value |
| Transitions.Drive | my_automation_scripts/create_project.py:225-260 | definition of the menu loop: a rejected response re-prompts, 0 ends with exit code 0, any other choice is one `handle_choice` round; `DriveEnds` and `DrivePreserves` state its properties |
| Transitions.LoadMachine | my_automation_scripts/create_project.py:39-49 | definition of `load_state`: an absent file is created as SETUP/`none`, an existing one is scanned; `MissingFileCreated` and `LoadedPersisted` state its properties |
| Transitions.MissingFileCreated | my_automation_scripts/create_project.py:39-49 | an absent state file is created holding SETUP/`none`, which loads back as SETUP/`none` |
| Transitions.DriveEnds | my_automation_scripts/create_project.py:225-264 | the menu loop ends only by running out of input or with exit code 0, and it exits exactly when some response reads as the choice 0 |
| Transitions.DrivePreserves | my_automation_scripts/create_project.py:225-309 | the menu loop keeps the manager consistent and the state file in step with memory, whatever is typed |
| Transitions.Session | my_automation_scripts/create_project.py:311-317 | definition of `run`: load, then set up (ending with exit code 1 on failure) when no usable project directory is held, then the menu loop |
| Transitions.StartupFailure | my_automation_scripts/create_project.py:311-316 | a session exits with code 1 exactly when the start-up setup fails, and then it has run only that setup |
| Transitions.LoadedPersisted | my_automation_scripts/create_project.py:39-49 | right after loading a readable record (or creating an absent one) the file gives back the pair in memory |
| Transitions.SessionPersists | my_automation_scripts/create_project.py:311-317 | after any session from a readable record or none, the state file gives the final phase and environment to the next session |
| Manager.ProjectManager.constructor | my_automation_scripts/create_project.py:22-28 | a new manager is in SETUP with `none` and no project directory |
| Manager.ProjectManager.SaveState | my_automation_scripts/create_project.py:51-56 | sets both fields and rewrites the whole state file with them |
| Manager.ProjectManager.LoadState | my_automation_scripts/create_project.py:39-49 | the loop leaves the fields as the line scan specifies (so the round trip and last-line-wins lemmas apply), or creates a missing file as SETUP/`none` |
| Manager.ProjectManager.VerifyProjectStructure | my_automation_scripts/create_project.py:58-74 | true iff the project directory is set and every required subdirectory exists under it |
| Manager.ProjectManager.SetupProject | my_automation_scripts/create_project.py:76-102 | verdict, commands and new project directory are those of `SetupAttempt` |
| Manager.ProjectManager.FormatTerraform | my_automation_scripts/create_project.py:125-139 | one `terraform fmt -recursive` in the project; its status is the verdict |
| Manager.ProjectManager.GenerateEnvironment | my_automation_scripts/create_project.py:104-123 | verdict and commands are those of `GenerateAttempt` |
| Manager.ProjectManager.DeployEnvironment | my_automation_scripts/create_project.py:141-188 | verdict and commands are those of `DeployAttempt` |
| Manager.ProjectManager.DestroyEnvironment | my_automation_scripts/create_project.py:190-223 | verdict and commands are those of `DestroyAttempt` |
| Manager.ProjectManager.HandleChoice | my_automation_scripts/create_project.py:262-307 | the new fields, commands and exit request are those of `Next` |
| Manager.ProjectManager.HandleInSetup | my_automation_scripts/create_project.py:266-277 | the SETUP branch does what `Next` says |
| Manager.ProjectManager.HandleInGenerate | my_automation_scripts/create_project.py:279-285 | the GENERATE branch does what `Next` says |
| Manager.ProjectManager.HandleInDeploy | my_automation_scripts/create_project.py:287-296 | the DEPLOY branch does what `Next` says |
| Manager.ProjectManager.HandleInDestroy | my_automation_scripts/create_project.py:298-307 | the DESTROY branch does what `Next` says |
| Manager.ProjectManager.ShowMenu | my_automation_scripts/create_project.py:225-260 | the loop's final fields, commands and ending are those of `Drive` over the typed turns |
| Manager.ProjectManager.Run | my_automation_scripts/create_project.py:311-317 | a fresh manager's session is `Session`: load, setup if needed (exit 1 on failure), menu |

## Left out

- Logging, `print` and the menu text are not modelled. The separate
  warning logged for an unknown phase token is not modelled either.
- The state-file path, the log file name and `setup_logging` are not
  modelled. The state file is a field holding the file's contents, or
  None while it does not exist.
- The real filesystem and processes are replaced by a `Host`:
  - a fixed set of existing paths, and an exit-status oracle that gives
    a command the same status every time it runs within a session;
  - tools do not change the path set during a session (a bootstrap run
    does not create the project directory);
  - the path set need not be prefix-closed.
- Missing executables: the source catches `FileNotFoundError` only in
  `format_terraform`. Everywhere else, a missing or unlaunchable
  executable raises an uncaught exception that ends the process. The model
  treats every launch as returning an exit status, so these launches count
  as failures instead.
- End of input: `input()` raising `EOFError` ends a session as
  `InputExhausted`. The real process ends with a traceback and exit
  status 1, which is not modelled.
- The mutual recursion between `show_menu` and `handle_choice` is modelled
  as one loop. In the source each handled choice adds two stack frames and
  each rejected response one, so Python's default recursion limit of 1000
  ends the process (`RecursionError`, exit status 1) after about 500 menu
  rounds. That limit is not modelled.
- `exit(0)` is a session ending `Exited(0)`. `exit(1)` at start-up is
  `Exited(1)`.
- Manager.ProjectManager.HandleChoice: the per-phase branches are separate
  methods (`HandleInSetup` … `HandleInDestroy`), with the same behaviour.
- Text.Lines: universal-newline translation (`\r\n` and `\r` read as
  `\n`) is not modelled. Lines are split at `\n` only. A lone `\r` that is
  not followed by `\n` can load differently in the source, which splits
  the line there. `\r\n` endings load the same, because `strip` removes
  the `\r`. The round trip is stated only for values without a `\r`
  (`Storable`).
- Text.Lower: lowers ASCII letters only, not all of Unicode.
- Transitions.ParseChoice: accepts ASCII digits only. `str.isdigit`
  also accepts other Unicode digits. For those, `int()` either reads them
  or raises `ValueError`, which re-prompts.
- Record.RoundTrip: holds for `Storable` environment values only. These
  are values without `=`, without `\n` or `\r` and without trailing
  whitespace, which include `none`, `pre-prod` and `prod`. Any other
  value is cut at the first `=` or line break, or stripped, when read back.
- Text.DecimalValue: its contract only fixes the value of a single digit.
  The value of a longer run of digits, such as `01` for entry 1, is given
  by its definition, not by a stated property.
- Manager.ProjectManager.VerifyProjectStructure: the early return at the
  first missing directory only affects the logged warning. The contract
  states the verdict, not which directory was reported.
