/** The persisted state record: the two `KEY=value` lines `save_state`
    writes and the line scan `load_state` performs over them. */
module Record {
  import opened Wrappers
  import opened Text
  import opened Phases

  /** The in-memory pair the record persists. */
  datatype Record = Record(phase: State, env: string)

  /** What a freshly constructed manager holds before anything is loaded. */
  const Defaults := Record(SETUP, "none")

  const StateName := "DEPLOY_STATE"
  const EnvName := "SELECTED_ENV"
  const StateKey := StateName + "="
  const EnvKey := EnvName + "="

  /** The file contents `save_state` writes for `r`. */
  function Serialize(r: Record): (text: string)
    ensures StartsWith(text, StateKey + Name(r.phase) + "\n")
    ensures text[|text| - 1] == '\n'
  {
    var first := StateKey + Name(r.phase) + "\n";
    assert (first + EnvKey + r.env + "\n")[..|first|] == first;
    first + EnvKey + r.env + "\n"
  }

  /** A line that names one of the two keys, the only lines the scan uses. */
  predicate IsKeyed(line: string) {
    StartsWith(line, StateKey) || StartsWith(line, EnvKey)
  }

  /** No line can carry both keys: they differ in their first character. */
  lemma KeysExclusive(line: string)
    ensures !(StartsWith(line, StateKey) && StartsWith(line, EnvKey))
  {
    assert StateKey[0] == 'D' && EnvKey[0] == 'S';
  }

  /** Stripping a keyed line keeps its key, so `split('=')` yields a second field. */
  lemma {:induction false} StripKeepsKey(line: string, key: string)
    requires key == StateKey || key == EnvKey
    requires StartsWith(line, key)
    ensures StartsWith(Strip(line), key)
  {
    assert !IsSpace(line[0]) by { assert line[0] == key[0]; }
    var t := TrimStart(line);
    assert t == line;
    var r := TrimEnd(t);
    assert !IsSpace(line[12]) by { assert line[12] == key[12] == '='; }
    assert |r| > 12;
    assert r[..|key|] == line[..|key|];
  }

  /** `line.strip().split('=')[1]`: the text between the first and the
      second `=` of the stripped line (or its end). */
  function Value(line: string): (v: string)
    requires IsKeyed(line)
    ensures '=' !in v
  {
    var key := if StartsWith(line, StateKey) then StateKey else EnvKey;
    StripKeepsKey(line, key);
    assert Strip(line)[12] == key[12] == '=';
    Split(Strip(line), '=')[1]
  }

  /** The effect of one line on the fields: a `DEPLOY_STATE=` line sets the
      phase (softly parsed), a `SELECTED_ENV=` line sets the environment,
      any other line is ignored. */
  function ApplyLine(r: Record, line: string): Record {
    if StartsWith(line, StateKey) then Record(FromString(Value(line)), r.env)
    else if StartsWith(line, EnvKey) then Record(r.phase, Value(line))
    else r
  }

  /** The fields after the scan of `load_state` over `lines`, from `r`. */
  function Scan(lines: seq<string>, r: Record): Record
    decreases |lines|
  {
    if lines == [] then r else Scan(lines[1..], ApplyLine(r, lines[0]))
  }

  /** Unfolding step of `Scan`: the scan from line `i` applies line `i` first. */
  lemma ScanStep(lines: seq<string>, i: nat, r: Record)
    requires i < |lines|
    ensures Scan(lines[i..], r) == Scan(lines[i + 1..], ApplyLine(r, lines[i]))
  {
    assert lines[i..][0] == lines[i] && lines[i..][1..] == lines[i + 1..];
  }

  /** The fields after loading an existing state file holding `text`. */
  function Load(text: string, r: Record): Record {
    Scan(Lines(text), r)
  }

  /** An environment value that a write followed by a read reproduces:
      it cannot hold the separator or a line break (`\n`, or a `\r` that
      text-mode reading turns into one), and `strip` would eat trailing
      whitespace. */
  predicate Storable(v: string) {
    '=' !in v && '\n' !in v && '\r' !in v && (v == [] || !IsSpace(v[|v| - 1]))
  }

  /** Each key is its name followed by the separator, which the name lacks. */
  lemma KeyNames()
    ensures StateKey == StateName + ['='] && '=' !in StateName
    ensures EnvKey == EnvName + ['='] && '=' !in EnvName
  {
  }

  /** A written `KEY=value` line strips back to `KEY=value`. */
  lemma StripWritten(key: string, v: string)
    requires key == StateKey || key == EnvKey
    requires Storable(v)
    ensures Strip(key + v + "\n") == key + v
  {
    var s := key + v;
    assert s[0] == key[0];
    assert s[|s| - 1] == if v == [] then '=' else v[|v| - 1];
    assert key + v + "\n" == s + "\n";
    StripTrailing(s, "\n");
  }

  /** A written `KEY=value` line reads back as `value`. */
  lemma ValueOfWritten(key: string, v: string)
    requires key == StateKey || key == EnvKey
    requires Storable(v)
    ensures IsKeyed(key + v + "\n") && StartsWith(key + v + "\n", key)
    ensures Value(key + v + "\n") == v
  {
    assert (key + v + "\n")[..|key|] == key;
    StripWritten(key, v);
    KeyNames();
    var name := if key == StateKey then StateName else EnvName;
    SplitAfterHead(name, '=', v);
  }

  /** Two newline-terminated lines are read as exactly those two lines. */
  lemma TwoLines(first: string, second: string)
    requires IsLine(first) && first[|first| - 1] == '\n'
    requires IsLine(second) && second[|second| - 1] == '\n'
    ensures Lines(first + second) == [first, second]
  {
    LinesCons(first, second);
    assert second + [] == second;
    LinesCons(second, []);
  }

  /** Unfolding step of `Scan` over two lines: they are applied in order. */
  lemma ScanTwo(a: string, b: string, r: Record)
    ensures Scan([a, b], r) == ApplyLine(ApplyLine(r, a), b)
  {
    var r1 := ApplyLine(r, a);
    assert [a, b][1..] == [b];
    assert Scan([a, b], r) == Scan([b], r1);
    assert [b][1..] == [];
    assert Scan([b], r1) == Scan([], ApplyLine(r1, b));
  }

  /** A written `KEY=value` line is a single line ending in its newline. */
  lemma WrittenLine(key: string, v: string)
    requires key == StateKey || key == EnvKey
    requires Storable(v)
    ensures IsLine(key + v + "\n") && (key + v + "\n")[|key + v + "\n"| - 1] == '\n'
  {
    var line := key + v + "\n";
    assert line[..|line| - 1] == key + v;
    assert '\n' !in key;
  }

  /** A two-line record with storable fields reads back field by field,
      whatever the fields held before. */
  lemma {:induction false} ReadBack(token: string, env: string, r: Record)
    requires Storable(token) && Storable(env)
    ensures Load(StateKey + token + "\n" + EnvKey + env + "\n", r) == Record(FromString(token), env)
  {
    var first := StateKey + token + "\n";
    var second := EnvKey + env + "\n";
    WrittenLine(StateKey, token);
    WrittenLine(EnvKey, env);
    TwoLines(first, second);
    assert StateKey + token + "\n" + EnvKey + env + "\n" == first + second;
    ValueOfWritten(StateKey, token);
    ValueOfWritten(EnvKey, env);
    KeysExclusive(second);
    ScanTwo(first, second, r);
  }

  /** Round trip of `save_state` and `load_state`: the record written for
      a phase and a storable environment reads back as exactly that pair. */
  lemma RoundTrip(rec: Record, r: Record)
    requires Storable(rec.env)
    ensures Load(Serialize(rec), r) == rec
  {
    var name := Name(rec.phase);
    assert Storable(name) by {
      match rec.phase
      case SETUP => assert name == "SETUP";
      case GENERATE => assert name == "GENERATE";
      case DEPLOY => assert name == "DEPLOY";
      case DESTROY => assert name == "DESTROY";
    }
    ReadBack(name, rec.env, r);
    NameRoundTrip(rec.phase);
  }

  /** An unknown phase token degrades to SETUP on load while the
      environment is still taken as written. */
  lemma CorruptPhase(token: string, env: string, r: Record)
    requires Storable(token) && Storable(env) && !IsName(token)
    ensures Load(StateKey + token + "\n" + EnvKey + env + "\n", r) == Record(SETUP, env)
  {
    ReadBack(token, env, r);
  }

  /** The value of the last line of `lines` that starts with `key`. */
  function Latest(lines: seq<string>, key: string): Option<string>
    requires key == StateKey || key == EnvKey
    decreases |lines|
  {
    if lines == [] then None
    else
      var later := Latest(lines[1..], key);
      if later.Some? then later
      else if StartsWith(lines[0], key) then (KeysExclusive(lines[0]); Some(Value(lines[0])))
      else None
  }

  /** Later lines override earlier ones: each field ends up as its last
      keyed line says, and keeps its previous value when no line names it. */
  lemma {:induction false} LastLineWins(lines: seq<string>, r: Record)
    ensures Scan(lines, r).phase == match Latest(lines, StateKey)
                                      case Some(v) => FromString(v)
                                      case None => r.phase
    ensures Scan(lines, r).env == match Latest(lines, EnvKey)
                                    case Some(v) => v
                                    case None => r.env
    decreases |lines|
  {
    if lines != [] {
      KeysExclusive(lines[0]);
      LastLineWins(lines[1..], ApplyLine(r, lines[0]));
    }
  }

  /** Loading the same file twice leaves the fields as loading it once. */
  lemma LoadIdempotent(text: string, r: Record)
    ensures Load(text, Load(text, r)) == Load(text, r)
  {
    LastLineWins(Lines(text), r);
    LastLineWins(Lines(text), Load(text, r));
  }
}
