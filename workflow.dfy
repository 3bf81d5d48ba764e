/**
  The module level of masterHI.py (lines 356-512): the persisted `Options` object,
  the four stages run in a fixed order when their flags are given on the command
  line, each refusing to run before the one it depends on has succeeded, and the
  final save of the options. The shell commands the stages run (`os.system`) are
  recorded in order, not executed; the scripts the stages write are recorded as
  the files' new contents.
*/
module Workflow {
  import opened Wrappers
  import opened Bruker
  import opened Scripts

  /** The parsed command line (masterHI.py:12-26); an option not given is None. */
  datatype Args = Args(
    conv: bool,
    dir: Option<string>,
    nsamples: Option<string>,
    phasecheck: bool,
    phase0: Option<string>,
    phase1: Option<string>,
    noEXT: bool,            // true unless --noEXT was given: it means "apply EXT"
    proc: Option<string>,
    itr: Option<string>,
    xN: Option<string>,
    yN: Option<string>,
    autoN: bool,
    recon: bool,
    ft23: bool,
    triplerez: bool)

  /** A command line with no option at all. */
  const NoArgs := Args(false, None, None, false, None, None, true, None, None, None, None, false, false, false, false)

  /** Python's truth value of an option given as a string. */
  predicate Given(a: Option<string>) {
    a.Some? && a.value != ""
  }

  /** The value of an `Options` object, as it is pickled into .masterHI.config. */
  datatype Config = Config(
    dir: Setting,
    phase0: Setting,
    phase1: Setting,
    nsamples: Setting,
    noEXT: bool,
    itr: Setting,
    autoN: bool,
    xN: Setting,
    yN: Setting,
    proc: Setting,
    triplerez: bool,
    beenConverted: bool,
    beenPhased: bool,
    beenReconed: bool,
    beenFT23: bool)

  /** What `Options()` holds (masterHI.py:357-373). */
  const Defaults := Config(PyFalse, PyZero, PyZero, PyZero, false, PyFalse, false, PyFalse, PyFalse, PyFalse, false,
                           false, false, false, false)

  /** The options object of the run; the stages update its fields one by one. */
  class Options {
    var dir: Setting
    var phase0: Setting
    var phase1: Setting
    var nsamples: Setting
    var noEXT: bool
    var itr: Setting
    var autoN: bool
    var xN: Setting
    var yN: Setting
    var proc: Setting
    var triplerez: bool
    var beenConverted: bool
    var beenPhased: bool
    var beenReconed: bool
    var beenFT23: bool

    function Value(): Config
      reads this
    {
      Config(dir, phase0, phase1, nsamples, noEXT, itr, autoN, xN, yN, proc, triplerez,
             beenConverted, beenPhased, beenReconed, beenFT23)
    }

    /** `Options()`: nothing set, no stage done. */
    constructor ()
      ensures Value() == Defaults
    {
      dir, phase0, phase1, nsamples, noEXT := PyFalse, PyZero, PyZero, PyZero, false;
      itr, autoN, xN, yN, proc, triplerez := PyFalse, false, PyFalse, PyFalse, PyFalse, false;
      beenConverted, beenPhased, beenReconed, beenFT23 := false, false, false, false;
    }

    /** `pickle.load`: the object saved by an earlier run. */
    constructor Restore(c: Config)
      ensures Value() == c
    {
      dir, phase0, phase1, nsamples, noEXT := c.dir, c.phase0, c.phase1, c.nsamples, c.noEXT;
      itr, autoN, xN, yN, proc, triplerez := c.itr, c.autoN, c.xN, c.yN, c.proc, c.triplerez;
      beenConverted, beenPhased, beenReconed, beenFT23 := c.beenConverted, c.beenPhased, c.beenReconed, c.beenFT23;
    }
  }

  /** What the run can observe besides its options: the files, number parsing, and whether yzx_ist is a directory. */
  datatype Env = Env(fs: FileSystem, num: Numbers, yzxIstIsDir: bool)

  const FidCom := "fid.com"
  const PhaseCom := "ft1xyz.com"
  const PrepareCom := "ft1yzx.com"
  const ReconPy := "recon.py"
  const IstCom := "ist.com"
  const PhfCom := "phf2pipe.com"
  const Ft23Com := "ft23.com"
  const NusCopy := "nuslist.copy"
  const NusUsed := "nuslist.used"

  /**
    The run so far: the options, the files written with their new contents, the
    commands run, and the exception that ended the run, if one did.
  */
  datatype Progress = Progress(config: Config, written: map<string, seq<string>>, commands: seq<string>,
                               raised: Option<Failure>)

  /** `Bruker3D(savedargs.dir)`: joining a directory that is not a string raises TypeError. */
  function LoadSetting(env: Env, dir: Setting): Result<Bruker3D, Failure> {
    if dir.PyStr? then Load(env.fs, dir.s, env.num) else Err(TypeError)
  }

  method OpenSetting(env: Env, dir: Setting) returns (r: Result<Bruker3D, Failure>)
    ensures r == LoadSetting(env, dir)
  {
    if dir.PyStr? {
      r := Open(env.fs, dir.s, env.num);
    } else {
      r := Err(TypeError);
    }
  }

  // ---------------------------------------------------------------- conversion stage

  /** The data directory of a conversion (masterHI.py:389-394): --dir, else the saved one, else ".". */
  function ConversionDir(c: Config, args: Args): (r: Config)
    ensures r.dir.PyStr? && r.dir.s != "" && r == c.(dir := r.dir)
    ensures Given(args.dir) ==> r.dir == PyStr(args.dir.value)
    ensures !Given(args.dir) && Truthy(c.dir) ==> r.dir == c.dir
    ensures !Given(args.dir) && !Truthy(c.dir) ==> r.dir == PyStr(".")
  {
    var c1 := if Given(args.dir) then c.(dir := PyStr(args.dir.value)) else c;
    if Truthy(c1.dir) then c1 else c1.(dir := PyStr("."))
  }

  /** The conversion stage (masterHI.py:387-409). */
  function Convert(p: Progress, args: Args, env: Env): Progress {
    if p.raised.Some? || !args.conv then p
    else
      var c := ConversionDir(p.config, args);
      ConvertLoaded(p.(config := c), args, env, Load(env.fs, c.dir.s, env.num))
  }

  /** The conversion stage once `Bruker3D` has been constructed, or has raised. */
  function ConvertLoaded(p: Progress, args: Args, env: Env, loaded: Result<Bruker3D, Failure>): Progress {
    match loaded
    case Err(e) => p.(raised := Some(e))
    case Ok(data) =>
      var c := if Given(args.nsamples) then p.config.(nsamples := PyStr(args.nsamples.value)) else p.config;
      var ns := if Given(args.nsamples) then Some(args.nsamples.value) else None;
      Converted(p.(config := c), GenConversion(data, ns, env.fs, env.num))
  }

  /** What the conversion stage does with the outcome of `genConversion` (masterHI.py:400-409). */
  function Converted(p: Progress, r: Conversion): Progress {
    match r
    case NotBruker => p
    case ConversionFailed(e) => p.(raised := Some(e))
    case ConversionScript(lines) =>
      Progress(p.config.(beenConverted := true), p.written[FidCom := lines], p.commands + ["chmod 770 fid.com", "./fid.com"], None)
  }

  // ---------------------------------------------------------------- phase-check stage

  /** An option given on the command line replaces the saved value; otherwise the saved value stays. */
  function Override(saved: Setting, a: Option<string>): Setting {
    if Given(a) then PyStr(a.value) else saved
  }

  /** How the phase-check stage merges --noEXT, --phase0 and --phase1 (masterHI.py:418-433). */
  function MergePhases(c: Config, args: Args): Config {
    var c1 := c.(noEXT := args.noEXT);
    if Given(args.phase0) && Given(args.phase1) then
      c1.(phase0 := PyStr(args.phase0.value), phase1 := PyStr(args.phase1.value), noEXT := args.noEXT)
    else if Given(args.phase0) then c1.(phase0 := PyStr(args.phase0.value), noEXT := args.noEXT)
    else if Given(args.phase1) then c1.(phase1 := PyStr(args.phase1.value), noEXT := args.noEXT)
    else c1
  }

  /**
    The three branches of the merge amount to overwriting each coefficient
    independently with the one supplied, and the EXT choice always.
  */
  lemma MergePhasesIndependent(c: Config, args: Args)
    ensures MergePhases(c, args)
         == c.(noEXT := args.noEXT, phase0 := Override(c.phase0, args.phase0), phase1 := Override(c.phase1, args.phase1))
  {
  }

  const DisplayFirstPoint := "nmrDraw -Ws 1000 700 -position 50 50 -in data001.dat"

  /** The phase-check stage (masterHI.py:413-445). */
  function Phase(p: Progress, args: Args, env: Env): Progress {
    if p.raised.Some? || !args.phasecheck || !p.config.beenConverted then p
    else PhaseLoaded(p, args, LoadSetting(env, p.config.dir))
  }

  function PhaseLoaded(p: Progress, args: Args, loaded: Result<Bruker3D, Failure>): Progress {
    match loaded
    case Err(e) => p.(raised := Some(e))
    case Ok(_) =>
      var c := MergePhases(p.config, args);
      var script := PhaseCheckScript(Str(c.phase0), Str(c.phase1), c.noEXT);
      Progress(c.(beenPhased := true), p.written[PhaseCom := script],
               p.commands + ["chmod 770 ft1xyz.com", "./ft1xyz.com", DisplayFirstPoint], None)
  }

  // ---------------------------------------------------------------- reconstruction stage

  /** How the reconstruction stage merges --proc, --itr, --xN, --yN and --autoN (masterHI.py:461-471). */
  function MergeRecon(c: Config, args: Args): Config {
    var pair := Given(args.xN) && Given(args.yN);
    c.(proc := Override(c.proc, args.proc), itr := Override(c.itr, args.itr),
       xN := if args.autoN then PyZero else if pair then PyStr(args.xN.value) else c.xN,
       yN := if args.autoN then PyZero else if pair then PyStr(args.yN.value) else c.yN,
       autoN := args.autoN || c.autoN)
  }

  /**
    Explicit point counts are stored only as a pair, --autoN resets both to 0 and
    wins over them, and a lone --xN or --yN leaves both saved counts as they were.
  */
  lemma MergeReconPointCounts(c: Config, args: Args)
    ensures var r := MergeRecon(c, args);
      && (args.autoN ==> r.autoN && r.xN == PyZero && r.yN == PyZero)
      && (!args.autoN && Given(args.xN) && Given(args.yN) ==> r.xN == PyStr(args.xN.value) && r.yN == PyStr(args.yN.value))
      && (!args.autoN && !(Given(args.xN) && Given(args.yN)) ==> r.xN == c.xN && r.yN == c.yN)
      && r.proc == Override(c.proc, args.proc) && r.itr == Override(c.itr, args.itr)
      && r == c.(proc := r.proc, itr := r.itr, xN := r.xN, yN := r.yN, autoN := r.autoN)
  {
  }

  /** The first `n` sample lines, as the loop of masterHI.py:484-486 writes them; none when `n` is not positive. */
  function FirstSamples(content: seq<string>, n: int): (r: seq<string>)
    requires n <= |content|
    ensures |r| == if n <= 0 then 0 else n
    ensures forall i :: 0 <= i < |r| ==> r[i] == content[i]
  {
    if n <= 0 then [] else content[..n]
  }

  /**
    `for i in range(n): outfile.write(content[i])` (masterHI.py:484-486): the
    lines written, and the IndexError raised when `n` exceeds the sample count,
    after every line has been written.
  */
  method WriteSamples(content: seq<string>, n: int) returns (used: seq<string>, failure: Option<Failure>)
    ensures n <= |content| ==> failure.None? && used == FirstSamples(content, n)
    ensures n > |content| ==> failure == Some(IndexError) && used == content
  {
    used := [];
    var i := 0;
    while i < n
      invariant 0 <= i <= (if n > 0 then n else 0)
      invariant i <= |content| && used == content[..i]
      decreases n - i
    {
      if i >= |content| {
        assert content[..i] == content;
        return used, Some(IndexError);
      }
      used := used + [content[i]];
      i := i + 1;
    }
    failure := None;
  }

  /** The commands that end a reconstruction (masterHI.py:489-494). */
  function Finish(env: Env): seq<string> {
    (if env.yzxIstIsDir then [] else ["mkdir yzx_ist"]) + ["./recon.py yzx/", "./phf2pipe.com"]
  }

  /** The options the prepare script is generated from (masterHI.py:451-453). */
  function PrepareSettings(c: Config, args: Args): Config {
    var c1 := c.(noEXT := args.noEXT);
    if Given(args.nsamples) then c1.(nsamples := PyStr(args.nsamples.value)) else c1
  }

  /** The reconstruction stage (masterHI.py:447-497). */
  function Recon(p: Progress, args: Args, env: Env): Progress {
    if p.raised.Some? || !args.recon || !p.config.beenPhased then p
    else ReconLoaded(p, args, env, LoadSetting(env, p.config.dir))
  }

  function ReconLoaded(p: Progress, args: Args, env: Env, loaded: Result<Bruker3D, Failure>): Progress {
    match loaded
    case Err(e) => p.(raised := Some(e))
    case Ok(data) =>
      var source := data.File("nuslist");
      Samples(ReconScripts(Prepare(p, args), args, source), env, source)
  }

  /** The prepare script is written and run (masterHI.py:451-458). */
  function Prepare(p: Progress, args: Args): Progress {
    var c := PrepareSettings(p.config, args);
    Progress(c, p.written[PrepareCom := PrepareScript(Str(c.phase0), Str(c.phase1), c.noEXT)],
             p.commands + ["chmod 770 ft1yzx.com", "./ft1yzx.com"], None)
  }

  /** The reconstruction settings are merged and the three scripts written (masterHI.py:461-476). */
  function ReconScripts(p: Progress, args: Args, source: string): Progress {
    var c := MergeRecon(p.config, args);
    var scripts := GenRecon(c.proc, c.itr, c.xN, c.yN);
    Progress(c, p.written[ReconPy := scripts.driver][IstCom := scripts.ist][PhfCom := scripts.phf],
             p.commands + ["chmod 770 recon.py ist.com phf2pipe.com", "cp " + source + " nuslist.copy"], None)
  }

  /**
    The sample lists (masterHI.py:478-487): nuslist.copy is refreshed from the data
    set's nuslist when there is one, and nuslist.used receives all of its lines when
    no sample count is saved, or max(n, 0) of them for a saved count n; then the
    reconstruction runs (masterHI.py:489-494).
  */
  function Samples(p: Progress, env: Env, source: string): Progress {
    if source !in env.fs && NusCopy !in env.fs then p.(raised := Some(FileNotFoundError))
    else
      var content := if source in env.fs then env.fs[source] else env.fs[NusCopy];
      var copied := if source in env.fs then p.written[NusCopy := content] else p.written;
      if !Truthy(p.config.nsamples) then
        Progress(p.config.(beenReconed := true), copied[NusUsed := content],
                 p.commands + ["cp nuslist.copy nuslist.used"] + Finish(env), None)
      else
        match env.num.toInt(p.config.nsamples.s)
        case None => p.(written := copied[NusUsed := []], raised := Some(ValueError))
        case Some(n) =>
          if n > |content| then p.(written := copied[NusUsed := content], raised := Some(IndexError))
          else Progress(p.config.(beenReconed := true), copied[NusUsed := FirstSamples(content, n)], p.commands + Finish(env), None)
  }

  // ---------------------------------------------------------------- final-transform stage

  /** The final transform once a reconstruction exists (masterHI.py:501-506). */
  function Ft23Run(p: Progress, args: Args, env: Env): Progress {
    Ft23Loaded(p, args, LoadSetting(env, p.config.dir))
  }

  function Ft23Loaded(p: Progress, args: Args, loaded: Result<Bruker3D, Failure>): Progress {
    match loaded
    case Err(e) => p.(raised := Some(e))
    case Ok(data) =>
      var c := p.config.(triplerez := args.triplerez);
      if data.y.acq.None? || data.z.acq.None? then p.(config := c, raised := Some(AttributeError))
      else
        Progress(c, p.written[Ft23Com := Ft23Script(c.triplerez, data.y.acq.value, data.z.acq.value)],
                 p.commands + ["chmod 770 ft23.com", "./ft23.com"], None)
  }

  /**
    The final-transform stage as written (masterHI.py:499-510): its refusal calls
    `Print`, a name that is not defined, so refusing raises NameError.
  */
  function Ft23AsWritten(p: Progress, args: Args, env: Env): (r: Progress)
    ensures r != Ft23(p, args, env) ==> args.ft23 && !p.config.beenReconed && r == p.(raised := Some(NameError))
  {
    if p.raised.Some? || !args.ft23 then p
    else if !p.config.beenReconed then p.(raised := Some(NameError))
    else Ft23Run(p, args, env)
  }

  /** The final-transform stage with the refusal only reporting, as the other stages' refusals do. */
  function Ft23(p: Progress, args: Args, env: Env): Progress {
    if p.raised.Some? || !args.ft23 || !p.config.beenReconed then p
    else Ft23Run(p, args, env)
  }

  // ---------------------------------------------------------------- one invocation

  /**
    The effect of one run: the options saved in .masterHI.config afterwards (None
    when there is no such file), the files written, the commands run, and the
    exception that ended the run, if any.
  */
  datatype Outcome = Outcome(saved: Option<Config>, written: map<string, seq<string>>, commands: seq<string>,
                             raised: Option<Failure>)

  /** The options the run starts from: the saved ones, else the defaults (masterHI.py:377-382). */
  function Start(persisted: Option<Config>): Config {
    if persisted.Some? then persisted.value else Defaults
  }

  /**
    The options are saved only when the run reaches its last lines
    (masterHI.py:511-512); an exception leaves the saved options as they were.
  */
  function Save(persisted: Option<Config>, p: Progress): Outcome {
    Outcome(if p.raised.None? then Some(p.config) else persisted, p.written, p.commands, p.raised)
  }

  function Stages(persisted: Option<Config>, args: Args, env: Env): Progress {
    var p := Progress(Start(persisted), map[], [], None);
    Recon(Phase(Convert(p, args, env), args, env), args, env)
  }

  /**
    One run of masterHI.py with the final-transform refusal corrected: a run that
    raises leaves .masterHI.config as it was, one that does not always saves.
  */
  function Invocation(persisted: Option<Config>, args: Args, env: Env): (r: Outcome)
    ensures r.raised.Some? ==> r.saved == persisted
    ensures r.raised.None? ==> r.saved.Some?
  {
    Save(persisted, Ft23(Stages(persisted, args, env), args, env))
  }

  /**
    One run of masterHI.py as written: it differs from the corrected run only when
    --ft23 is given, and then by ending in NameError with nothing saved.
  */
  function InvocationAsWritten(persisted: Option<Config>, args: Args, env: Env): (r: Outcome)
    ensures r != Invocation(persisted, args, env) ==> args.ft23 && r.raised == Some(NameError) && r.saved == persisted
  {
    Save(persisted, Ft23AsWritten(Stages(persisted, args, env), args, env))
  }

  // ---------------------------------------------------------------- properties of a run

  /**
    What every saved configuration satisfies: a stage is marked done only after
    the one before it, a converted data set has a directory, and the two point
    counts of the reconstruction are zero together.
  */
  predicate Consistent(c: Config) {
    && (c.beenReconed ==> c.beenPhased)
    && (c.beenPhased ==> c.beenConverted)
    && (c.beenConverted ==> Truthy(c.dir))
    && (IsZero(c.xN) <==> IsZero(c.yN))
  }

  /** No stage ever clears a flag set by an earlier run. */
  predicate FlagsKept(c: Config, c': Config) {
    && (c.beenConverted ==> c'.beenConverted)
    && (c.beenPhased ==> c'.beenPhased)
    && (c.beenReconed ==> c'.beenReconed)
    && (c.beenFT23 ==> c'.beenFT23)
  }

  /** A fresh `Options()` is consistent. */
  lemma DefaultsConsistent()
    ensures Consistent(Defaults)
  {
  }

  /** Only a script marks the data set converted; a refusal or an exception leaves the options alone. */
  lemma ConvertedConfig(p: Progress, r: Conversion)
    ensures Converted(p, r).config == if r.ConversionScript? then p.config.(beenConverted := true) else p.config
  {
  }

  /** The options after a conversion: --nsamples merged, and the data set marked converted when a script was made. */
  lemma ConvertLoadedConfig(p: Progress, args: Args, env: Env, loaded: Result<Bruker3D, Failure>)
    ensures var c := if loaded.Ok? && Given(args.nsamples) then p.config.(nsamples := PyStr(args.nsamples.value)) else p.config;
      var q := ConvertLoaded(p, args, env, loaded);
      q.config == c || q.config == c.(beenConverted := true)
  {
    if loaded.Ok? {
      var c := if Given(args.nsamples) then p.config.(nsamples := PyStr(args.nsamples.value)) else p.config;
      var ns := if Given(args.nsamples) then Some(args.nsamples.value) else None;
      ConvertedConfig(p.(config := c), GenConversion(loaded.value, ns, env.fs, env.num));
    }
  }

  /** Each stage keeps the options consistent and clears no flag. */
  lemma ConvertKeepsConsistent(p: Progress, args: Args, env: Env)
    requires Consistent(p.config)
    ensures Consistent(Convert(p, args, env).config) && FlagsKept(p.config, Convert(p, args, env).config)
  {
    if p.raised.None? && args.conv {
      var c := ConversionDir(p.config, args);
      ConvertLoadedConfig(p.(config := c), args, env, Load(env.fs, c.dir.s, env.num));
    }
  }

  /** The phase check marks the data set phased and merges the coefficients and the EXT choice, nothing else. */
  lemma PhaseLoadedConfig(p: Progress, args: Args, loaded: Result<Bruker3D, Failure>)
    ensures var q := PhaseLoaded(p, args, loaded);
      q.config == p.config || q.config == MergePhases(p.config, args).(beenPhased := true)
  {
  }

  lemma PhaseKeepsConsistent(p: Progress, args: Args, env: Env)
    requires Consistent(p.config)
    ensures Consistent(Phase(p, args, env).config) && FlagsKept(p.config, Phase(p, args, env).config)
  {
    if p.raised.None? && args.phasecheck && p.config.beenConverted {
      MergePhasesIndependent(p.config, args);
      PhaseLoadedConfig(p, args, LoadSetting(env, p.config.dir));
    }
  }

  /** Merging the reconstruction options keeps the point counts paired. */
  lemma MergeReconKeepsPairs(c: Config, args: Args)
    requires IsZero(c.xN) <==> IsZero(c.yN)
    ensures var m := MergeRecon(c, args); IsZero(m.xN) <==> IsZero(m.yN)
  {
    MergeReconPointCounts(c, args);
  }

  /** The sample lists change no option; a completed reconstruction is marked done. */
  lemma SamplesConfig(p: Progress, env: Env, source: string)
    ensures var q := Samples(p, env, source); q.config == p.config || q.config == p.config.(beenReconed := true)
  {
  }

  /** The prepare step merges --noEXT and --nsamples. */
  lemma PrepareConfig(p: Progress, args: Args)
    ensures Prepare(p, args).config == PrepareSettings(p.config, args)
  {
  }

  /** Writing the reconstruction scripts merges the reconstruction options. */
  lemma ReconScriptsConfig(p: Progress, args: Args, source: string)
    ensures ReconScripts(p, args, source).config == MergeRecon(p.config, args)
  {
  }

  /** The options after a reconstruction, whatever happened to the files. */
  lemma ReconLoadedConfig(p: Progress, args: Args, env: Env, loaded: Result<Bruker3D, Failure>)
    ensures var m := MergeRecon(PrepareSettings(p.config, args), args);
      var q := ReconLoaded(p, args, env, loaded);
      q.config == p.config || q.config == m || q.config == m.(beenReconed := true)
  {
    if loaded.Ok? {
      var source := loaded.value.File("nuslist");
      var q := Prepare(p, args);
      PrepareConfig(p, args);
      var s := ReconScripts(q, args, source);
      ReconScriptsConfig(q, args, source);
      SamplesConfig(s, env, source);
    }
  }

  /** The options a reconstruction ends with, whatever scripts it wrote. */
  lemma ReconConfigKeepsConsistent(c: Config, args: Args, done: Config)
    requires Consistent(c) && c.beenPhased
    requires var m := MergeRecon(PrepareSettings(c, args), args); done == m || done == m.(beenReconed := true)
    ensures Consistent(done) && FlagsKept(c, done)
  {
    var m := MergeRecon(PrepareSettings(c, args), args);
    MergeReconKeepsPairs(PrepareSettings(c, args), args);
    assert m.beenConverted == c.beenConverted && m.beenPhased && m.beenReconed == c.beenReconed;
    assert m.dir == c.dir && m.beenFT23 == c.beenFT23;
  }

  lemma ReconLoadedKeepsConsistent(p: Progress, args: Args, env: Env, loaded: Result<Bruker3D, Failure>)
    requires Consistent(p.config) && p.config.beenPhased
    ensures var q := ReconLoaded(p, args, env, loaded);
      Consistent(q.config) && FlagsKept(p.config, q.config)
  {
    ReconLoadedConfig(p, args, env, loaded);
    var q := ReconLoaded(p, args, env, loaded);
    if q.config != p.config {
      ReconConfigKeepsConsistent(p.config, args, q.config);
    }
  }

  lemma ReconKeepsConsistent(p: Progress, args: Args, env: Env)
    requires Consistent(p.config)
    ensures Consistent(Recon(p, args, env).config) && FlagsKept(p.config, Recon(p, args, env).config)
  {
    if p.raised.None? && args.recon && p.config.beenPhased {
      ReconLoadedKeepsConsistent(p, args, env, LoadSetting(env, p.config.dir));
    }
  }

  /** The final transform sets --triplerez when it runs, and changes no other option. */
  lemma Ft23Config(p: Progress, args: Args, env: Env)
    ensures Ft23(p, args, env).config == p.config || Ft23(p, args, env).config == p.config.(triplerez := args.triplerez)
  {
  }

  /** The conversion changes the directory, the sample count and its own flag, no other option. */
  lemma ConvertFrame(p: Progress, args: Args, env: Env)
    ensures var c, q := p.config, Convert(p, args, env).config;
      q == c.(dir := q.dir, nsamples := q.nsamples, beenConverted := q.beenConverted)
  {
    if p.raised.None? && args.conv {
      var c := ConversionDir(p.config, args);
      ConvertLoadedConfig(p.(config := c), args, env, Load(env.fs, c.dir.s, env.num));
    }
  }

  /** The phase check changes the coefficients, the EXT choice and its own flag, no other option. */
  lemma PhaseFrame(p: Progress, args: Args, env: Env)
    ensures var c, q := p.config, Phase(p, args, env).config;
      q == c.(phase0 := q.phase0, phase1 := q.phase1, noEXT := q.noEXT, beenPhased := q.beenPhased)
  {
    if p.raised.None? && args.phasecheck && p.config.beenConverted {
      MergePhasesIndependent(p.config, args);
      PhaseLoadedConfig(p, args, LoadSetting(env, p.config.dir));
    }
  }

  /**
    The reconstruction changes the EXT choice, the sample count, the
    reconstruction settings and its own flag, no other option.
  */
  lemma ReconFrame(p: Progress, args: Args, env: Env)
    ensures var c, q := p.config, Recon(p, args, env).config;
      q == c.(noEXT := q.noEXT, nsamples := q.nsamples, proc := q.proc, itr := q.itr, xN := q.xN, yN := q.yN,
              autoN := q.autoN, beenReconed := q.beenReconed)
  {
    if p.raised.None? && args.recon && p.config.beenPhased {
      var loaded := LoadSetting(env, p.config.dir);
      ReconLoadedConfig(p, args, env, loaded);
      ReconConfigFrame(p.config, args, ReconLoaded(p, args, env, loaded).config);
    }
  }

  /** The fields a reconstruction can change, stated on the options alone. */
  lemma ReconConfigFrame(c: Config, args: Args, done: Config)
    requires var m := MergeRecon(PrepareSettings(c, args), args); done == c || done == m || done == m.(beenReconed := true)
    ensures done == c.(noEXT := done.noEXT, nsamples := done.nsamples, proc := done.proc, itr := done.itr, xN := done.xN,
                       yN := done.yN, autoN := done.autoN, beenReconed := done.beenReconed)
  {
    var s := PrepareSettings(c, args);
    PrepareSettingsFrame(c, args);
    var m := MergeRecon(s, args);
    MergeReconPointCounts(s, args);
  }

  /** Preparing changes the EXT choice and the sample count only. */
  lemma PrepareSettingsFrame(c: Config, args: Args)
    ensures var s := PrepareSettings(c, args); s == c.(noEXT := args.noEXT, nsamples := s.nsamples)
    ensures Given(args.nsamples) ==> PrepareSettings(c, args).nsamples == PyStr(args.nsamples.value)
    ensures !Given(args.nsamples) ==> PrepareSettings(c, args).nsamples == c.nsamples
  {
    if Given(args.nsamples) {
      assert PrepareSettings(c, args) == c.(noEXT := args.noEXT, nsamples := PyStr(args.nsamples.value));
    } else {
      assert PrepareSettings(c, args) == c.(noEXT := args.noEXT);
    }
  }

  /** The final transform changes the triple-resolution choice only; no stage ever sets beenFT23. */
  lemma Ft23Frame(p: Progress, args: Args, env: Env)
    ensures var c, q := p.config, Ft23(p, args, env).config; q == c.(triplerez := q.triplerez)
  {
    Ft23Config(p, args, env);
  }

  /**
    Whatever the command line and the files, a run started from a consistent
    configuration (or from none) saves a consistent one, and keeps every stage
    flag it started with.
  */
  lemma InvocationKeepsConsistent(persisted: Option<Config>, args: Args, env: Env)
    requires persisted.Some? ==> Consistent(persisted.value)
    ensures var out := Invocation(persisted, args, env);
      out.saved.Some? ==> Consistent(out.saved.value) && FlagsKept(Start(persisted), out.saved.value)
  {
    var p0 := Progress(Start(persisted), map[], [], None);
    DefaultsConsistent();
    ConvertKeepsConsistent(p0, args, env);
    var p1 := Convert(p0, args, env);
    PhaseKeepsConsistent(p1, args, env);
    var p2 := Phase(p1, args, env);
    ReconKeepsConsistent(p2, args, env);
    var p3 := Recon(p2, args, env);
    Ft23Config(p3, args, env);
  }

  /**
    On a consistent configuration the reconstruction always runs hmsIST: no
    combination of --xN, --yN and --autoN leaves ist.com without its command.
  */
  lemma ReconAlwaysRunsHmsIst(c: Config, args: Args)
    requires Consistent(c)
    ensures var m := MergeRecon(c, args);
      |IstScript(m.itr, m.xN, m.yN)| == 6 && IstLine(m.itr, m.xN, m.yN).Some?
  {
    MergeReconKeepsPairs(c, args);
  }

  /** A run without options changes nothing: no file, no command, and the saved options as they were. */
  lemma NoArgsChangesNothing(c: Config, env: Env)
    ensures Invocation(Some(c), NoArgs, env) == Outcome(Some(c), map[], [], None)
  {
  }

  /**
    fid.com is written exactly when the conversion produces a script; the stage
    then runs it and marks the data set converted.
  */
  lemma ConvertWritesFid(p: Progress, args: Args, env: Env)
    requires p.raised.None? && FidCom !in p.written
    ensures var q := Convert(p, args, env);
      && (FidCom in q.written <==> |q.commands| > |p.commands|)
      && (FidCom in q.written ==> q.config.beenConverted && q.raised.None? && q.commands == p.commands + ["chmod 770 fid.com", "./fid.com"])
      && (q.config.beenConverted ==> p.config.beenConverted || FidCom in q.written)
  {
  }

  /**
    nuslist.used is always a prefix of the sample list: all of it when no sample
    count is saved (a --nsamples of an earlier run is still saved), max(n, 0) lines
    on success, all of it when the count is larger than the list (the IndexError
    comes after every line was written).
    The reconstruction is marked done only when the lists were written without error.
  */
  lemma SamplesUsed(p: Progress, env: Env, source: string)
    requires source in env.fs || NusCopy in env.fs
    ensures var q := Samples(p, env, source);
      var content := if source in env.fs then env.fs[source] else env.fs[NusCopy];
      && NusUsed in q.written && q.written[NusUsed] <= content
      && (!Truthy(p.config.nsamples) ==> q.written[NusUsed] == content && q.raised.None?)
      && (q.raised == Some(IndexError) ==> q.written[NusUsed] == content)
      && (q.raised.None? ==> q.config == p.config.(beenReconed := true))
      && (q.raised.Some? ==> q.config == p.config)
      && (q.raised.None? && Truthy(p.config.nsamples) ==>
            var n := env.num.toInt(p.config.nsamples.s);
            n.Some? && |q.written[NusUsed]| == if n.value <= 0 then 0 else n.value)
  {
  }

  /**
    A phase check that gets past its guard succeeds exactly when the data set
    loads, and then marks the data set phased and writes ft1xyz.com.
  */
  lemma PhaseMarksPhased(p: Progress, args: Args, env: Env)
    requires p.raised.None? && args.phasecheck && p.config.beenConverted
    ensures var q := Phase(p, args, env);
      && (q.raised.None? <==> LoadSetting(env, p.config.dir).Ok?)
      && (q.raised.None? ==> q.config.beenPhased && PhaseCom in q.written)
      && (q.raised.Some? ==> q.config == p.config && q.written == p.written)
  {
  }

  /** A stage asked for before the one it depends on has succeeded changes nothing. */
  lemma RefusedStagesChangeNothing(p: Progress, args: Args, env: Env)
    ensures !p.config.beenConverted ==> Phase(p, args, env) == p
    ensures !p.config.beenPhased ==> Recon(p, args, env) == p
    ensures !p.config.beenReconed ==> Ft23(p, args, env) == p
  {
  }

  /**
    As written, a final transform asked for before any reconstruction ends the run
    with NameError, so whatever the earlier stages did in this run is not saved.
  */
  lemma Ft23RefusalLosesOptions(persisted: Option<Config>, args: Args, env: Env)
    requires args.ft23
    requires Stages(persisted, args, env).raised.None? && !Stages(persisted, args, env).config.beenReconed
    ensures InvocationAsWritten(persisted, args, env).saved == persisted
    ensures InvocationAsWritten(persisted, args, env).raised == Some(NameError)
    ensures Invocation(persisted, args, env).saved == Some(Stages(persisted, args, env).config)
    ensures Invocation(persisted, args, env).raised.None?
  {
  }

  /** The first run of `masterHI.py --ft23` in a fresh directory: as written it saves nothing. */
  lemma Ft23FirstRun(env: Env)
    ensures InvocationAsWritten(None, NoArgs.(ft23 := true), env) == Outcome(None, map[], [], Some(NameError))
    ensures Invocation(None, NoArgs.(ft23 := true), env) == Outcome(Some(Defaults), map[], [], None)
  {
  }

  // ---------------------------------------------------------------- the run, step by step

  method ConversionDirStep(o: Options, args: Args)
    modifies o
    ensures o.Value() == ConversionDir(old(o.Value()), args)
  {
    if Given(args.dir) {
      o.dir := PyStr(args.dir.value);
    }
    if !Truthy(o.dir) {
      o.dir := PyStr(".");
    }
  }

  method ConvertStep(o: Options, args: Args, env: Env, written: map<string, seq<string>>, commands: seq<string>,
                      raised: Option<Failure>)
    returns (written': map<string, seq<string>>, commands': seq<string>, raised': Option<Failure>)
    modifies o
    ensures Progress(o.Value(), written', commands', raised') == Convert(Progress(old(o.Value()), written, commands, raised), args, env)
  {
    written', commands', raised' := written, commands, raised;
    if raised.Some? || !args.conv {
      return;
    }
    ConversionDirStep(o, args);
    var data := Open(env.fs, o.dir.s, env.num);
    written', commands', raised' := ConvertLoadedStep(o, args, env, data, written, commands);
  }

  method ConvertLoadedStep(o: Options, args: Args, env: Env, data: Result<Bruker3D, Failure>,
                           written: map<string, seq<string>>, commands: seq<string>)
    returns (written': map<string, seq<string>>, commands': seq<string>, raised: Option<Failure>)
    modifies o
    ensures Progress(o.Value(), written', commands', raised)
         == ConvertLoaded(Progress(old(o.Value()), written, commands, None), args, env, data)
  {
    written', commands', raised := written, commands, None;
    if data.Err? {
      return written, commands, Some(data.error);
    }
    var r;
    if Given(args.nsamples) {
      o.nsamples := PyStr(args.nsamples.value);
      r := GenConversion(data.value, Some(o.nsamples.s), env.fs, env.num);
    } else {
      r := GenConversion(data.value, None, env.fs, env.num);
    }
    if r.ConversionFailed? {
      return written, commands, Some(r.failure);
    }
    if r.ConversionScript? {
      written' := written[FidCom := r.lines];
      commands' := commands + ["chmod 770 fid.com", "./fid.com"];
      o.beenConverted := true;
    }
  }

  method MergePhasesStep(o: Options, args: Args)
    modifies o
    ensures o.Value() == MergePhases(old(o.Value()), args)
  {
    o.noEXT := args.noEXT;
    if Given(args.phase0) && Given(args.phase1) {
      o.phase0 := PyStr(args.phase0.value);
      o.phase1 := PyStr(args.phase1.value);
      o.noEXT := args.noEXT;
    } else if Given(args.phase0) {
      o.phase0 := PyStr(args.phase0.value);
      o.noEXT := args.noEXT;
    } else if Given(args.phase1) {
      o.phase1 := PyStr(args.phase1.value);
      o.noEXT := args.noEXT;
    }
  }

  method PhaseStep(o: Options, args: Args, env: Env, written: map<string, seq<string>>, commands: seq<string>,
                    raised: Option<Failure>)
    returns (written': map<string, seq<string>>, commands': seq<string>, raised': Option<Failure>)
    modifies o
    ensures Progress(o.Value(), written', commands', raised') == Phase(Progress(old(o.Value()), written, commands, raised), args, env)
  {
    written', commands', raised' := written, commands, raised;
    if raised.Some? || !args.phasecheck || !o.beenConverted {
      return;
    }
    var data := OpenSetting(env, o.dir);
    written', commands', raised' := PhaseLoadedStep(o, args, data, written, commands);
  }

  method PhaseLoadedStep(o: Options, args: Args, data: Result<Bruker3D, Failure>,
                         written: map<string, seq<string>>, commands: seq<string>)
    returns (written': map<string, seq<string>>, commands': seq<string>, raised: Option<Failure>)
    modifies o
    ensures Progress(o.Value(), written', commands', raised)
         == PhaseLoaded(Progress(old(o.Value()), written, commands, None), args, data)
  {
    written', commands', raised := written, commands, None;
    if data.Err? {
      return written, commands, Some(data.error);
    }
    MergePhasesStep(o, args);
    written' := written[PhaseCom := PhaseCheckScript(Str(o.phase0), Str(o.phase1), o.noEXT)];
    commands' := commands + ["chmod 770 ft1xyz.com", "./ft1xyz.com", DisplayFirstPoint];
    ghost var c := o.Value();
    o.beenPhased := true;
    assert o.Value() == c.(beenPhased := true);
  }

  method PrepareSettingsStep(o: Options, args: Args)
    modifies o
    ensures o.Value() == PrepareSettings(old(o.Value()), args)
  {
    o.noEXT := args.noEXT;
    if Given(args.nsamples) {
      o.nsamples := PyStr(args.nsamples.value);
    }
  }

  method MergeReconStep(o: Options, args: Args)
    modifies o
    ensures o.Value() == MergeRecon(old(o.Value()), args)
  {
    var proc, itr, xN, yN, autoN := o.proc, o.itr, o.xN, o.yN, o.autoN;
    if Given(args.proc) {
      proc := PyStr(args.proc.value);
    }
    if Given(args.itr) {
      itr := PyStr(args.itr.value);
    }
    if Given(args.xN) && Given(args.yN) {
      xN, yN := PyStr(args.xN.value), PyStr(args.yN.value);
    }
    if args.autoN {
      autoN, xN, yN := true, PyZero, PyZero;
    }
    o.proc, o.itr, o.xN, o.yN, o.autoN := proc, itr, xN, yN, autoN;
  }

  method ReconStep(o: Options, args: Args, env: Env, written: map<string, seq<string>>, commands: seq<string>,
                    raised: Option<Failure>)
    returns (written': map<string, seq<string>>, commands': seq<string>, raised': Option<Failure>)
    modifies o
    ensures Progress(o.Value(), written', commands', raised') == Recon(Progress(old(o.Value()), written, commands, raised), args, env)
  {
    written', commands', raised' := written, commands, raised;
    if raised.Some? || !args.recon || !o.beenPhased {
      return;
    }
    var data := OpenSetting(env, o.dir);
    written', commands', raised' := ReconLoadedStep(o, args, env, data, written, commands);
  }

  method ReconLoadedStep(o: Options, args: Args, env: Env, data: Result<Bruker3D, Failure>,
                         written: map<string, seq<string>>, commands: seq<string>)
    returns (written': map<string, seq<string>>, commands': seq<string>, raised: Option<Failure>)
    modifies o
    ensures Progress(o.Value(), written', commands', raised)
         == ReconLoaded(Progress(old(o.Value()), written, commands, None), args, env, data)
  {
    written', commands', raised := written, commands, None;
    if data.Err? {
      return written, commands, Some(data.error);
    }
    written', commands' := PrepareStep(o, args, written, commands);
    var source := data.value.File("nuslist");
    written', commands' := ReconScriptsStep(o, args, source, written', commands');
    written', commands', raised := SamplesStep(o, env, source, written', commands');
  }

  method PrepareStep(o: Options, args: Args, written: map<string, seq<string>>, commands: seq<string>)
    returns (written': map<string, seq<string>>, commands': seq<string>)
    modifies o
    ensures Progress(o.Value(), written', commands', None) == Prepare(Progress(old(o.Value()), written, commands, None), args)
  {
    PrepareSettingsStep(o, args);
    written' := written[PrepareCom := PrepareScript(Str(o.phase0), Str(o.phase1), o.noEXT)];
    commands' := commands + ["chmod 770 ft1yzx.com", "./ft1yzx.com"];
  }

  method ReconScriptsStep(o: Options, args: Args, source: string, written: map<string, seq<string>>, commands: seq<string>)
    returns (written': map<string, seq<string>>, commands': seq<string>)
    modifies o
    ensures Progress(o.Value(), written', commands', None)
         == ReconScripts(Progress(old(o.Value()), written, commands, None), args, source)
  {
    MergeReconStep(o, args);
    var scripts := GenRecon(o.proc, o.itr, o.xN, o.yN);
    written' := written[ReconPy := scripts.driver][IstCom := scripts.ist][PhfCom := scripts.phf];
    commands' := commands + ["chmod 770 recon.py ist.com phf2pipe.com", "cp " + source + " nuslist.copy"];
  }

  method SamplesStep(o: Options, env: Env, source: string, written: map<string, seq<string>>, commands: seq<string>)
    returns (written': map<string, seq<string>>, commands': seq<string>, raised: Option<Failure>)
    modifies o
    ensures Progress(o.Value(), written', commands', raised) == Samples(Progress(old(o.Value()), written, commands, None), env, source)
  {
    written', commands', raised := written, commands, None;
    var content;
    if source in env.fs {
      content := env.fs[source];
      written' := written'[NusCopy := content];
    } else if NusCopy in env.fs {
      content := env.fs[NusCopy];
    } else {
      return written, commands, Some(FileNotFoundError);
    }
    if !Truthy(o.nsamples) {
      commands' := commands' + ["cp nuslist.copy nuslist.used"];
      written' := written'[NusUsed := content];
    } else {
      written' := written'[NusUsed := []];
      var n := env.num.toInt(o.nsamples.s);
      if n.None? {
        return written', commands', Some(ValueError);
      }
      var used, failure := WriteSamples(content, n.value);
      written' := written'[NusUsed := used];
      if failure.Some? {
        return written', commands', failure;
      }
    }
    if !env.yzxIstIsDir {
      commands' := commands' + ["mkdir yzx_ist"];
    }
    commands' := commands' + ["./recon.py yzx/", "./phf2pipe.com"];
    o.beenReconed := true;
  }

  method Ft23Step(o: Options, args: Args, env: Env, written: map<string, seq<string>>, commands: seq<string>,
                   raised: Option<Failure>)
    returns (written': map<string, seq<string>>, commands': seq<string>, raised': Option<Failure>)
    modifies o
    ensures Progress(o.Value(), written', commands', raised') == Ft23(Progress(old(o.Value()), written, commands, raised), args, env)
  {
    written', commands', raised' := written, commands, raised;
    if raised.Some? || !args.ft23 || !o.beenReconed {
      return;
    }
    var data := OpenSetting(env, o.dir);
    written', commands', raised' := Ft23LoadedStep(o, args, data, written, commands);
  }

  method Ft23LoadedStep(o: Options, args: Args, data: Result<Bruker3D, Failure>,
                        written: map<string, seq<string>>, commands: seq<string>)
    returns (written': map<string, seq<string>>, commands': seq<string>, raised: Option<Failure>)
    modifies o
    ensures Progress(o.Value(), written', commands', raised)
         == Ft23Loaded(Progress(old(o.Value()), written, commands, None), args, data)
  {
    written', commands', raised := written, commands, None;
    if data.Err? {
      return written, commands, Some(data.error);
    }
    ghost var c := o.Value();
    o.triplerez := args.triplerez;
    assert o.Value() == c.(triplerez := args.triplerez);
    if data.value.y.acq.None? || data.value.z.acq.None? {
      return written, commands, Some(AttributeError);
    }
    written' := written[Ft23Com := Ft23Script(o.triplerez, data.value.y.acq.value, data.value.z.acq.value)];
    commands' := commands + ["chmod 770 ft23.com", "./ft23.com"];
  }

  /** The module level of masterHI.py: load or create the options, run the requested stages, save. */
  method Run(persisted: Option<Config>, args: Args, env: Env) returns (out: Outcome)
    ensures out == Invocation(persisted, args, env)
  {
    var savedargs: Options;
    if persisted.Some? {
      savedargs := new Options.Restore(persisted.value);
    } else {
      savedargs := new Options();
    }
    var written: map<string, seq<string>> := map[];
    var commands: seq<string> := [];
    var raised: Option<Failure> := None;
    written, commands, raised := ConvertStep(savedargs, args, env, written, commands, raised);
    written, commands, raised := PhaseStep(savedargs, args, env, written, commands, raised);
    written, commands, raised := ReconStep(savedargs, args, env, written, commands, raised);
    written, commands, raised := Ft23Step(savedargs, args, env, written, commands, raised);
    if raised.Some? {
      out := Outcome(persisted, written, commands, raised);
    } else {
      out := Outcome(Some(savedargs.Value()), written, commands, None);
    }
  }
}
