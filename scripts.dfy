/**
  The script generators of `Bruker3D` (masterHI.py:143-355). Each builds the list of
  lines of one script and writes it once at the end; here each is a function that
  returns the lines, and the workflow records them as the file's new contents.
*/
module Scripts {
  import opened Wrappers
  import opened Text
  import opened Bruker

  /**
    The values an `Options` field can hold: the `False` and `0` the defaults use,
    or a string taken from the command line.
  */
  datatype Setting = PyFalse | PyZero | PyStr(s: string)

  /** Python's `v == 0`: `False == 0` holds, a string never equals 0. */
  predicate IsZero(v: Setting) {
    v.PyFalse? || v.PyZero?
  }

  /** Python's truth value: only a non-empty string is true. */
  predicate Truthy(v: Setting) {
    v.PyStr? && v.s != ""
  }

  /** `str(v)`, which is also what `'{}'.format(v)` yields. */
  function Str(v: Setting): string {
    match v
    case PyFalse => "False"
    case PyZero => "0"
    case PyStr(s) => s
  }

  const Csh := "#!/bin/csh"

  // ---------------------------------------------------------------- phase check and prepare

  const SolLine := "| nmrPipe -fn SOL \\"
  const ExtLine := "| nmrPipe  -fn EXT -left -sw           \\"

  /** The phase-correction step with the coefficients as given (masterHI.py:153, 219). */
  function PsLine(phase0: string, phase1: string): string {
    "| nmrPipe  -fn PS -p0 " + phase0 + " -p1 " + phase1 + " -di              \\"
  }

  /** `genDirectPhaseCheck` (masterHI.py:143-156): transform the first sampled point only. */
  function PhaseCheckScript(phase0: string, phase1: string, ext: bool): (r: seq<string>)
    ensures |r| == if ext then 10 else 9
  {
    var head := [
      Csh,
      "# hmsIST FT along direct dimension for first samples point only",
      "nmrPipe -in fid/data001.fid       \\",
      SolLine,
      "| nmrPipe  -fn SP -off 0.5 -end 0.98 -pow 2 -c 0.5  \\",
      "| nmrPipe  -fn ZF -auto                         \\",
      "| nmrPipe  -fn FT -verb                             \\",
      PsLine(phase0, phase1)];
    head + (if ext then [ExtLine] else []) + [">data001.dat"]
  }

  /** The phase check applies the given coefficients and EXT exactly when asked, and writes data001.dat. */
  lemma PhaseCheckScriptSteps(phase0: string, phase1: string, ext: bool)
    ensures var r := PhaseCheckScript(phase0, phase1, ext);
      && r[0] == Csh && r[|r| - 1] == ">data001.dat"
      && PsLine(phase0, phase1) in r
      && (ExtLine in r <==> ext)
  {
    assert PsLine(phase0, phase1)[15] == 'P';
  }

  const PrepareTail := ["| pipe2xyz -ov -out yzx/data%03d.dat -z", "rm -rf yzx_ist", "mkdir yzx_ist"]

  /**
    `genPrepare` (masterHI.py:209-225): the same direct-dimension chain over every
    plane, written out in yzx order, then a fresh, empty yzx_ist directory.
  */
  function PrepareScript(phase0: string, phase1: string, ext: bool): (r: seq<string>)
    ensures |r| == if ext then 12 else 11
  {
    var head := [
      Csh,
      "# hmsIST FT along direct dimension and prepare for reconstruction",
      "xyz2pipe -in fid/data%03d.fid -x \\",
      SolLine,
      "| nmrPipe  -fn SP -off 0.5 -end 0.98 -pow 2 -c 0.5  \\",
      "| nmrPipe  -fn ZF -auto                         \\",
      "| nmrPipe  -fn FT -verb                             \\",
      PsLine(phase0, phase1)];
    head + (if ext then [ExtLine] else []) + PrepareTail
  }

  /** The prepare script applies the given coefficients and EXT exactly when asked, and ends by emptying yzx_ist. */
  lemma PrepareScriptSteps(phase0: string, phase1: string, ext: bool)
    ensures var r := PrepareScript(phase0, phase1, ext);
      && r[0] == Csh && r[|r| - 3..] == PrepareTail
      && PsLine(phase0, phase1) in r
      && (ExtLine in r <==> ext)
  {
    assert PsLine(phase0, phase1)[15] == 'P';
  }

  /**
    The prepare script runs exactly the processing chain of the phase check (from
    the solvent filter to the optional EXT), so the phases chosen on the first
    point are the phases applied to every plane.
  */
  lemma PrepareRepeatsPhaseCheckChain(phase0: string, phase1: string, ext: bool)
    ensures var check, prep := PhaseCheckScript(phase0, phase1, ext), PrepareScript(phase0, phase1, ext);
      check[3..|check| - 1] == prep[3..|prep| - 3]
  {
  }

  // ---------------------------------------------------------------- final transform

  /** The Fourier-transform variant applied to an indirect axis. */
  datatype Transform = Negated | Alternated | Plain

  const FtNeg := "| nmrPipe  -fn FT -neg -verb                            \\"
  const FtAlt := "| nmrPipe  -fn FT -alt -verb                            \\"
  const FtPlainY := "| nmrPipe  -fn FT -verb                            \\"
  const FtAltTriple := "| nmrPipe  -fn FT -alt -verb                       \\"
  const FtPlainZ := "| nmrPipe  -fn FT -verb                       \\"

  /** Which transform an FT line of the final-transform script asks nmrPipe for. */
  function TransformOf(line: string): Option<Transform> {
    if line == FtNeg then Some(Negated)
    else if line == FtAlt || line == FtAltTriple then Some(Alternated)
    else if line == FtPlainY || line == FtPlainZ then Some(Plain)
    else None
  }

  /** Index of the transform of the first and of the second indirect axis in the script. */
  const YFt := 5
  const ZFt := 10

  /** `genFT23` (masterHI.py:163-198): transform both indirect axes, baseline-correct, project. */
  function Ft23Script(triplerez: bool, yACQ: string, zACQ: string): (r: seq<string>)
    ensures |r| == 19
  {
    var yFt :=
      if triplerez then FtNeg
      else if yACQ == "6" then FtNeg
      else if yACQ == "5" then FtAlt
      else FtPlainY;
    var zFt :=
      if triplerez then FtAltTriple
      else if zACQ == "6" then FtNeg
      else if zACQ == "5" then FtAlt
      else FtPlainZ;
    [ Csh,
      "# hmsIST FT along indirect dimensions",
      "xyz2pipe -in rec/data%03d.ft1 -x \\",
      "| nmrPipe  -fn SP -off 0.5 -end 0.98 -pow 2 -c 0.5 \\",
      "| nmrPipe  -fn ZF -auto                       \\",
      yFt,
      "| nmrPipe  -fn PS -p0 0.0 -p1 0.0 -di              \\",
      "| nmrPipe  -fn TP \\",
      "| nmrPipe  -fn SP -off 0.5 -end 0.98 -pow 2 -c 0.5 \\",
      "| nmrPipe  -fn ZF -auto  \\",
      zFt,
      "| nmrPipe  -fn PS -p0 0  -p1 0.0 -di              \\",
      "| nmrPipe  -fn POLY -auto -ord 1 \\",
      "| nmrPipe  -fn TP \\",
      "| nmrPipe  -fn POLY -auto -ord 1 \\",
      "| nmrPipe  -fn ZTP \\",
      "| nmrPipe  -fn POLY -auto -ord 1 \\",
      "> 3Dspectrum.dat",
      "proj3D.tcl -in 3Dspectrum.dat"]
  }

  /**
    The transform of each indirect axis: triple resolution forces a negated first
    and an alternated second axis; otherwise acquisition code 6 negates, 5
    alternates, and any other code leaves the plain transform.
  */
  lemma Ft23ScriptTransforms(triplerez: bool, yACQ: string, zACQ: string)
    ensures var r := Ft23Script(triplerez, yACQ, zACQ);
      && r[0] == Csh && r[18] == "proj3D.tcl -in 3Dspectrum.dat"
      && (TransformOf(r[YFt]) == Some(Negated) <==> triplerez || yACQ == "6")
      && (TransformOf(r[YFt]) == Some(Alternated) <==> !triplerez && yACQ == "5")
      && (TransformOf(r[YFt]) == Some(Plain) <==> !triplerez && yACQ != "5" && yACQ != "6")
      && (TransformOf(r[ZFt]) == Some(Alternated) <==> triplerez || zACQ == "5")
      && (TransformOf(r[ZFt]) == Some(Negated) <==> !triplerez && zACQ == "6")
      && (TransformOf(r[ZFt]) == Some(Plain) <==> !triplerez && zACQ != "5" && zACQ != "6")
  {
  }

  /** With triple resolution the acquisition codes of both axes are ignored. */
  lemma TriplerezIgnoresCodes(y1: string, z1: string, y2: string, z2: string)
    ensures Ft23Script(true, y1, z1) == Ft23Script(true, y2, z2)
  {
  }

  /** Each axis's transform depends on its own code only; every other line is fixed. */
  lemma Ft23AxesIndependent(triplerez: bool, y1: string, z1: string, y2: string, z2: string)
    ensures Ft23Script(triplerez, y1, z1)[YFt] == Ft23Script(triplerez, y1, z2)[YFt]
    ensures Ft23Script(triplerez, y1, z1)[ZFt] == Ft23Script(triplerez, y2, z1)[ZFt]
    ensures forall i :: 0 <= i < 19 && i != YFt && i != ZFt ==>
      Ft23Script(triplerez, y1, z1)[i] == Ft23Script(!triplerez, y2, z2)[i]
  {
  }

  // ---------------------------------------------------------------- reconstruction

  /** The body of recon.py up to the pool (masterHI.py:235-265); it does not depend on any setting. */
  const DriverBody := [
    "#!/usr/bin/env python",
    "",
    "from __future__ import print_function",
    "from multiprocessing import Pool",
    "import curses",
    "from subprocess import call",
    "import sys",
    "from os import listdir",
    "from os.path import isfile, join",
    "from os import walk",
    "",
    "onlyfiles = [ f for f in listdir(sys.argv[1]) if isfile(join(sys.argv[1],f)) ]",
    "onlyfiles.sort()",
    "num=len(onlyfiles)",
    "",
    "def recon(x):",
    "    global num",
    "    path, dirs, files = next(walk('./yzx_ist'))",
    "    i = len(files)",
    "    hashsize = int(num/32.0)",
    "    hashes = int(float(i)/float(hashsize))",
    "    for n in range(32):",
    "        if n < hashes:",
    "            print('#', end='')",
    "        else:",
    "            print('-', end='')",
    "    perc = 100.0*i/num",
    "    print('%.2f' % perc + ' %', end='\\r')",
    "    sys.stdout.flush()",
    "    call([\"./ist.com\", x])",
    ""]

  const AllCores := "pool = Pool(None)"

  const IstHeader := [Csh, "set F = $1", "  set in = $F:t", "  set out = $F:t:r.phf", ""]

  const IstTail := " -verb 0 -ref 0 -vlist nuslist.used < ./yzx/${in} >! ./yzx_ist/${out}"

  /** An hmsIST invocation with the given point-count options and iteration count. */
  function HmsIst(points: string, iterations: string): string {
    "hmsIST -dim 2 -incr 1 " + points + " -user 1 -itr " + iterations + IstTail
  }

  /** The iteration count hmsIST is given: 250 unless a count was set. */
  function Iterations(itr: Setting): string {
    if IsZero(itr) then "250" else Str(itr)
  }

  const AutoPoints := "-autoN 1"

  function ExplicitPoints(xN: Setting, yN: Setting): string {
    "-xN " + Str(xN) + " -yN " + Str(yN)
  }

  /** The three scripts `genRecon` writes: recon.py, ist.com and phf2pipe.com. */
  datatype ReconScripts = ReconScripts(driver: seq<string>, ist: seq<string>, phf: seq<string>)

  /** recon.py (masterHI.py:234-270): map ist.com over the planes on a process pool. */
  function ReconDriver(proc: Setting): (r: seq<string>)
    ensures |r| == |DriverBody| + 2
  {
    var pool :=
      if proc.PyFalse? || proc.PyZero? then AllCores
      else "pool = Pool(processes=" + Str(proc) + ")";
    DriverBody + [pool, "it = pool.map(recon, onlyfiles)"]
  }

  /**
    recon.py differs from one run to another only in its pool: every core when
    the process count is 0 (or unset), otherwise exactly the count given.
  */
  lemma ReconDriverPool(proc: Setting)
    ensures var r := ReconDriver(proc);
      && r[..|DriverBody|] == DriverBody
      && r[|r| - 1] == "it = pool.map(recon, onlyfiles)"
      && (r[|r| - 2] == AllCores <==> IsZero(proc))
      && (!IsZero(proc) ==> r[|r| - 2] == "pool = Pool(processes=" + Str(proc) + ")")
  {
    var r := ReconDriver(proc);
    if !IsZero(proc) {
      assert r[|r| - 2][12] == 'p';
    }
  }

  /** The automatic-count line of the source, regrouped around its iteration count. */
  lemma AutoLine(iterations: string)
    ensures "hmsIST -dim 2 -incr 1 -autoN 1 -user 1 -itr " + iterations + IstTail == HmsIst(AutoPoints, iterations)
  {
  }

  /** The explicit-count line of the source, regrouped around its counts and iteration count. */
  lemma ExplicitLine(x: string, y: string, iterations: string)
    ensures "hmsIST -dim 2 -incr 1 -xN " + x + " -yN " + y + " -user 1 -itr " + iterations + IstTail
         == HmsIst("-xN " + x + " -yN " + y, iterations)
  {
  }

  /** The literal 250 of the source is the default iteration count. */
  lemma DefaultIterations(head: string)
    ensures head + " -user 1 -itr 250" + IstTail == head + " -user 1 -itr " + "250" + IstTail
  {
    assert " -user 1 -itr 250" == " -user 1 -itr " + "250";
  }

  /**
    The hmsIST invocation of ist.com (masterHI.py:280-287). The four branches of
    the source choose automatic or explicit point counts and the default or given
    iteration count; when exactly one of xN and yN is zero no branch applies.
  */
  function IstLine(itr: Setting, xN: Setting, yN: Setting): (r: Option<string>)
    ensures r.Some? <==> IsZero(xN) == IsZero(yN)
  {
    var itrZero, xZero, yZero := itr.PyFalse? || itr.PyZero?, xN.PyFalse? || xN.PyZero?, yN.PyFalse? || yN.PyZero?;
    if itrZero && xZero && yZero then
      Some("hmsIST -dim 2 -incr 1 -autoN 1 -user 1 -itr 250" + IstTail)
    else if !itrZero && xZero && yZero then
      Some("hmsIST -dim 2 -incr 1 -autoN 1 -user 1 -itr " + Str(itr) + IstTail)
    else if itrZero && !xZero && !yZero then
      Some("hmsIST -dim 2 -incr 1 -xN " + Str(xN) + " -yN " + Str(yN) + " -user 1 -itr 250" + IstTail)
    else if !itrZero && !xZero && !yZero then
      Some("hmsIST -dim 2 -incr 1 -xN " + Str(xN) + " -yN " + Str(yN) + " -user 1 -itr " + Str(itr) + IstTail)
    else
      None
  }

  /**
    The four branches amount to two choices made independently: automatic or
    explicit point counts, and 250 iterations or the count given.
  */
  lemma IstLineChoices(itr: Setting, xN: Setting, yN: Setting)
    ensures IsZero(xN) && IsZero(yN) ==> IstLine(itr, xN, yN) == Some(HmsIst(AutoPoints, Iterations(itr)))
    ensures !IsZero(xN) && !IsZero(yN) ==> IstLine(itr, xN, yN) == Some(HmsIst(ExplicitPoints(xN, yN), Iterations(itr)))
  {
    if IsZero(xN) && IsZero(yN) {
      if IsZero(itr) {
        AutoLine("250");
        assert "hmsIST -dim 2 -incr 1 -autoN 1 -user 1 -itr 250" == "hmsIST -dim 2 -incr 1 -autoN 1 -user 1 -itr " + "250";
      } else {
        AutoLine(Str(itr));
      }
    } else if !IsZero(xN) && !IsZero(yN) {
      if IsZero(itr) {
        DefaultIterations("hmsIST -dim 2 -incr 1 -xN " + Str(xN) + " -yN " + Str(yN));
        ExplicitLine(Str(xN), Str(yN), "250");
      } else {
        ExplicitLine(Str(xN), Str(yN), Str(itr));
      }
    }
  }

  /** ist.com (masterHI.py:276-289): reconstruct one plane with hmsIST. */
  function IstScript(itr: Setting, xN: Setting, yN: Setting): (r: seq<string>)
    ensures |r| == (if IsZero(xN) == IsZero(yN) then 6 else 5)
  {
    var line := IstLine(itr, xN, yN);
    assert |IstHeader| == 5;
    IstHeader + (if line.Some? then [line.value] else [])
  }

  /** ist.com is the fixed header followed by the hmsIST invocation, when there is one. */
  lemma IstScriptLayout(itr: Setting, xN: Setting, yN: Setting)
    ensures var r := IstScript(itr, xN, yN);
      && r[..5] == IstHeader
      && (|r| == 6 ==> Some(r[5]) == IstLine(itr, xN, yN))
  {
    assert |IstHeader| == 5;
  }

  const PhfScript := [Csh, "xyz2pipe -in yzx_ist/data%03d.phf | phf2pipe -user 1 | pipe2xyz -out rec/data%03d.ft1"]

  /** `genRecon` (masterHI.py:232-300). */
  function GenRecon(proc: Setting, itr: Setting, xN: Setting, yN: Setting): (r: ReconScripts)
    ensures |r.driver| == |DriverBody| + 2 && |r.ist| >= 5
    ensures r.driver[..|DriverBody|] == DriverBody && r.ist[..5] == IstHeader && r.phf == PhfScript
    ensures |r.ist| == 6 <==> IsZero(xN) == IsZero(yN)
  {
    ReconDriverPool(proc);
    IstScriptLayout(itr, xN, yN);
    ReconScripts(ReconDriver(proc), IstScript(itr, xN, yN), PhfScript)
  }

  // ---------------------------------------------------------------- conversion

  const MacroLine := "| nmrPipe -fn MAC -macro $NMRTXT/ranceY.M -noRd -noWr                \\"
  const CommentedMacroLine := "#| nmrPipe -fn MAC -macro $NMRTXT/ranceY.M -noRd -noWr               \\"
  const ToFid := "| pipe2xyz -x -out ./fid/data%03d.fid -verb -ov -to 0"

  /** One parameter row of bruk2pipe: `  -xK {0: >w}   -yK {1: >w}   -zK {2: >w} \`. */
  function Row(key: string, w: nat, x: string, y: string, z: string): (r: string)
    ensures |r| > 0 && r[0] == ' '
  {
    "  -x" + key + " " + PadLeft(x, w) + "   -y" + key + " " + PadLeft(y, w) + "   -z" + key + " " + PadLeft(z, w) + " \\"
  }

  /**
    The words the shell sees on a row of the conversion script: each flag followed by
    its value, then the line continuation, for values that are single words.
  */
  lemma RowWords(key: string, w: nat, x: string, y: string, z: string)
    requires NoSpace(key) && IsWord(x) && IsWord(y) && IsWord(z)
    ensures Split(Row(key, w, x, y, z)) == ["-x" + key, x, "-y" + key, y, "-z" + key, z, "\\"]
  {
    var cz := "  -x" + key + " " + PadLeft(x, w) + "   -y" + key + " " + PadLeft(y, w) + "   -z" + key + " " + PadLeft(z, w);
    RowFlags(key, w, x, y, z);
    SplitContinued(cz);
  }

  /** The three flag columns of a row, without the line continuation. */
  lemma RowFlags(key: string, w: nat, x: string, y: string, z: string)
    requires NoSpace(key) && IsWord(x) && IsWord(y) && IsWord(z)
    ensures Split("  -x" + key + " " + PadLeft(x, w) + "   -y" + key + " " + PadLeft(y, w) + "   -z" + key + " " + PadLeft(z, w))
         == ["-x" + key, x, "-y" + key, y, "-z" + key, z]
  {
    RowLeads();
    RowColumns("  -x", "   -y", "   -z", "  ", "   ", "-x", "-y", "-z", key, w, x, y, z);
  }

  /** The literal pieces of a row: indentation, then the flag. */
  lemma RowLeads()
    ensures "  -x" == "  " + "-x" && "   -y" == "   " + "-y" && "   -z" == "   " + "-z"
    ensures AllSpace("  ") && AllSpace("   ") && IsWord("-x") && IsWord("-y") && IsWord("-z")
  {
  }

  /** The three columns of a row, without the line continuation. */
  lemma RowColumns(lx: string, ly: string, lz: string, sx: string, s: string, fx: string, fy: string, fz: string,
                   key: string, w: nat, x: string, y: string, z: string)
    requires lx == sx + fx && ly == s + fy && lz == s + fz
    requires AllSpace(sx) && sx != [] && AllSpace(s) && s != []
    requires IsWord(fx) && IsWord(fy) && IsWord(fz)
    requires NoSpace(key) && IsWord(x) && IsWord(y) && IsWord(z)
    ensures Split(lx + key + " " + PadLeft(x, w) + ly + key + " " + PadLeft(y, w) + lz + key + " " + PadLeft(z, w))
         == [fx + key, x, fy + key, y, fz + key, z]
  {
    var cy := lx + key + " " + PadLeft(x, w) + ly + key + " " + PadLeft(y, w);
    TwoColumns(lx, ly, sx, s, fx, fy, key, w, x, y);
    RowColumn(cy, lz, s, fz, key, w, z);
  }

  /** The first two columns of a row. */
  lemma TwoColumns(lx: string, ly: string, sx: string, s: string, fx: string, fy: string,
                   key: string, w: nat, x: string, y: string)
    requires lx == sx + fx && ly == s + fy
    requires AllSpace(sx) && sx != [] && AllSpace(s) && s != []
    requires IsWord(fx) && IsWord(fy) && NoSpace(key) && IsWord(x) && IsWord(y)
    ensures Split(lx + key + " " + PadLeft(x, w) + ly + key + " " + PadLeft(y, w)) == [fx + key, x, fy + key, y]
  {
    var cx := lx + key + " " + PadLeft(x, w);
    FirstColumn(lx, sx, fx, key, w, x);
    RowColumn(cx, ly, s, fy, key, w, y);
  }

  /** A trailing ` \\` adds the continuation as one last word. */
  lemma SplitContinued(l: string)
    ensures Split(l + " \\") == Split(l) + ["\\"]
  {
    assert " \\" == " " + "\\";
    SplitSpacedWord(" ", "\\");
    SplitAppend(l, " \\");
  }

  /** The first column of a row splits into its flag and its value. */
  lemma FirstColumn(lead: string, sp: string, flag: string, key: string, w: nat, v: string)
    requires lead == sp + flag
    requires AllSpace(sp) && sp != [] && IsWord(flag) && NoSpace(key) && IsWord(v)
    ensures Split(lead + key + " " + PadLeft(v, w)) == [flag + key, v]
  {
    var e: string := [];
    assert e + lead == lead;
    RowColumn(e, lead, sp, flag, key, w, v);
  }

  /** One `-xKEY value` column of a row: its two words follow the words before it. */
  lemma RowColumn(l: string, lead: string, sp: string, flag: string, key: string, w: nat, v: string)
    requires lead == sp + flag
    requires AllSpace(sp) && sp != [] && IsWord(flag) && NoSpace(key) && IsWord(v)
    ensures Split(l + lead + key + " " + PadLeft(v, w)) == Split(l) + [flag + key, v]
  {
    var head := l + lead + key;
    var pad := PadLeft(v, w);
    assert Split(head) == Split(l) + [flag + key] by {
      FlagWords(l, lead, sp, flag, key);
    }
    assert Split(head + " ") == Split(l) + [flag + key] by {
      SplitSpacedWord(" ", []);
      assert " " + [] == " ";
      SplitAppend(head, " ");
    }
    assert Split(head + " " + pad) == Split(head + " ") + [v] by {
      SplitPadLeft(v, w);
      SplitAppend(head + " ", pad);
    }
  }

  /** A flag glued to its key, after whitespace, is one more word. */
  lemma FlagWords(l: string, lead: string, sp: string, flag: string, key: string)
    requires lead == sp + flag
    requires AllSpace(sp) && sp != [] && IsWord(flag) && NoSpace(key)
    ensures Split(l + lead + key) == Split(l) + [flag + key]
  {
    var fk := flag + key;
    WordAppend(flag, key);
    assert l + lead + key == l + (sp + fk);
    SplitSpacedWord(sp, fk);
    SplitAppend(l, sp + fk);
  }

  /** What `genConversion` does: return 1, raise, or produce the script. */
  datatype Conversion = NotBruker | ConversionFailed(failure: Failure) | ConversionScript(lines: seq<string>)

  /** Field `v` is set and, when the script formats it as a number, `float()` accepts it. */
  predicate Readable(v: Option<string>, numeric: bool, num: Numbers) {
    v.Some? && (numeric ==> num.isFloat(v.value))
  }

  /** Every field the conversion script formats can be read. */
  predicate Formattable(data: Bruker3D, num: Numbers) {
    var x, y, z := data.x, data.y, data.z;
    && Readable(data.decim, false, num) && Readable(data.dspfvs, false, num) && Readable(data.grpdly, false, num)
    && Readable(x.n, false, num) && Readable(y.n, false, num)
    && Readable(x.t, false, num) && Readable(y.t, false, num) && Readable(z.t, false, num)
    && Readable(x.mode, false, num) && Readable(y.mode, false, num) && Readable(z.mode, false, num)
    && Readable(x.sw, true, num) && Readable(y.sw, true, num) && Readable(z.sw, true, num)
    && Readable(x.obs, true, num) && Readable(y.obs, true, num) && Readable(z.obs, true, num)
    // The carrier row formats `xCAR`, stored by the constructor as `float(xO1) / float(xBF1)`;
    // its inputs are what can fail here (a loaded, valid data set already has them, see `Load`).
    && Readable(x.o1, true, num) && Readable(x.bf1, true, num) && Readable(y.o1, true, num)
    && Readable(y.bf1, true, num) && Readable(z.o1, true, num) && Readable(z.bf1, true, num)
    && Readable(x.lab, false, num) && Readable(y.lab, false, num) && Readable(z.lab, false, num)
  }

  /** `rest`, unless reading field `v` raises first. */
  function Then(v: Option<string>, numeric: bool, num: Numbers, rest: Option<Failure>): (r: Option<Failure>)
    ensures r.None? <==> Readable(v, numeric, num) && rest.None?
  {
    if v.None? then Some(AttributeError)
    else if numeric && !num.isFloat(v.value) then Some(ValueError)
    else rest
  }

  /**
    The exception the formatting of masterHI.py:320-342 raises: that of the first
    unreadable field in the order the fields are read (filter settings, point
    counts, time-domain sizes, modes, spectral widths, observe frequencies, carrier
    inputs, labels); None when every field can be read.
  */
  function ConversionFailure(data: Bruker3D, num: Numbers): (r: Option<Failure>)
    ensures r.None? <==> Formattable(data, num)
  {
    var x, y, z := data.x, data.y, data.z;
    Then(data.decim, false, num, Then(data.dspfvs, false, num, Then(data.grpdly, false, num,
    Then(x.n, false, num, Then(y.n, false, num,
    Then(x.t, false, num, Then(y.t, false, num, Then(z.t, false, num,
    Then(x.mode, false, num, Then(y.mode, false, num, Then(z.mode, false, num,
    Then(x.sw, true, num, Then(y.sw, true, num, Then(z.sw, true, num,
    Then(x.obs, true, num, Then(y.obs, true, num, Then(z.obs, true, num,
    Then(x.o1, true, num, Then(x.bf1, true, num, Then(y.o1, true, num, Then(y.bf1, true, num,
    Then(z.o1, true, num, Then(z.bf1, true, num,
    Then(x.lab, false, num, Then(y.lab, false, num, Then(z.lab, false, num,
    None))))))))))))))))))))))))))
  }

  /** The sample count zN: the override when given, otherwise the nuslist's line count. */
  function SampleCount(ns: Option<string>, nuslist: seq<string>): string {
    if ns.Some? then ns.value else NatToString(|nuslist|)
  }

  /** Index of the echo/antiecho macro step in the conversion script. */
  const MacroAt := 13

  const ConversionComment := "# hmsIST conversion script for Bruker 3D Data"

  const NdimLine := "  -ndim              3   -aq2D        Complex                        \\"

  /** The lines of the conversion script (masterHI.py:320-346), once every field it formats can be read. */
  function ConversionLines(data: Bruker3D, zN: string, num: Numbers): (r: seq<string>)
    requires Formattable(data, num)
    ensures |r| == 15
    ensures r[5] == Row("N", 16, data.x.n.value, data.y.n.value, zN)
  {
    var x, y, z := data.x, data.y, data.z;
    var nRow := Row("N", 16, x.n.value, y.n.value, zN);
    var tRow := Row("T", 16, x.t.value, y.t.value, z.t.value);
    var modeRow := Row("MODE", 13, x.mode.value, y.mode.value, z.mode.value);
    var swRow := Row("SW", 15, num.round5(x.sw.value), num.round5(y.sw.value), num.round5(z.sw.value));
    var obsRow := Row("OBS", 14, num.round5(x.obs.value), num.round5(y.obs.value), num.round5(z.obs.value));
    var carRow := Row("CAR", 14, num.carRound5(x.o1.value, x.bf1.value), num.carRound5(y.o1.value, y.bf1.value),
                      num.carRound5(z.o1.value, z.bf1.value));
    var labRow := Row("LAB", 14, x.lab.value, y.lab.value, z.lab.value);
    var input := "bruk2pipe -in " + data.File("ser") + " \\";
    var filter := "  -bad 0.0 -ext -aswap -AMX -decim " + data.decim.value + " -dspfvs " + data.dspfvs.value
      + " -grpdly " + data.grpdly.value + "        \\";
    var macro := if data.t2EA then MacroLine else CommentedMacroLine;
    [Csh, ConversionComment, "", input, filter, nRow, tRow, modeRow, swRow, obsRow, carRow, labRow,
     NdimLine, macro, ToFid]
  }

  /**
    The conversion script starts the shell, ends by writing the fid files, and
    applies the echo/antiecho macro exactly when the pulse program records
    t2-echoantiecho, commenting it out otherwise; its point-count row ends with
    the sample count.
  */
  lemma ConversionLinesLayout(data: Bruker3D, zN: string, num: Numbers)
    requires Formattable(data, num)
    ensures var r := ConversionLines(data, zN, num);
      && r[0] == Csh && r[14] == ToFid
      && (r[MacroAt] == MacroLine <==> data.t2EA)
      && (r[MacroAt] == CommentedMacroLine <==> !data.t2EA)
      && r[5] == Row("N", 16, data.x.n.value, data.y.n.value, zN)
  {
    var r := ConversionLines(data, zN, num);
    assert r[MacroAt] == if data.t2EA then MacroLine else CommentedMacroLine;
    assert MacroLine != CommentedMacroLine;
  }

  /** `genConversion` (masterHI.py:304-350): the bruk2pipe conversion script. */
  function GenConversion(data: Bruker3D, ns: Option<string>, fs: FileSystem, num: Numbers): (r: Conversion)
    ensures r.NotBruker? <==> !data.valid
  {
    if !data.valid then NotBruker
    else if ns.None? && data.File("nuslist") !in fs then ConversionFailed(FileNotFoundError)
    else
      var zN := if ns.None? then NatToString(|fs[data.File("nuslist")]|) else ns.value;
      if !Formattable(data, num) then ConversionFailed(ConversionFailure(data, num).value)
      else ConversionScript(ConversionLines(data, zN, num))
  }

  /**
    A data set that is not a Bruker 3D one yields no script; otherwise the script
    is produced exactly when the sample count is known (given, or read from the
    nuslist) and every field it formats can be read, and its point-count row ends
    with that sample count.
  */
  lemma GenConversionOutcome(data: Bruker3D, ns: Option<string>, fs: FileSystem, num: Numbers)
    ensures var r := GenConversion(data, ns, fs, num);
      && (data.valid ==>
           (r.ConversionScript? <==> (ns.Some? || data.File("nuslist") in fs) && ConversionFailure(data, num).None?))
      && (r.ConversionScript? ==>
           && |r.lines| == 15 && r.lines[0] == Csh && r.lines[14] == ToFid
           && (r.lines[MacroAt] == MacroLine <==> data.t2EA)
           && (r.lines[MacroAt] == CommentedMacroLine <==> !data.t2EA)
           && r.lines[5] == Row("N", 16, data.x.n.value, data.y.n.value,
                                SampleCount(ns, if ns.Some? then [] else fs[data.File("nuslist")])))
  {
    if data.valid && (ns.Some? || data.File("nuslist") in fs) && Formattable(data, num) {
      var zN := if ns.None? then NatToString(|fs[data.File("nuslist")]|) else ns.value;
      ConversionLinesLayout(data, zN, num);
    }
  }

  /** The words of the point-count row. */
  lemma PointCountRowWords(x: string, y: string, z: string)
    requires IsWord(x) && IsWord(y) && IsWord(z)
    ensures Split(Row("N", 16, x, y, z)) == ["-xN", x, "-yN", y, "-zN", z, "\\"]
  {
    assert NoSpace("N");
    RowWords("N", 16, x, y, z);
    assert "-x" + "N" == "-xN" && "-y" + "N" == "-yN" && "-z" + "N" == "-zN";
  }

  /**
    The point-count row of fid.com as the shell reads it, for counts that are single
    words: zN is the argument of `-zN`, and a count taken from the nuslist reads back
    as the number of its lines.
  */
  lemma SampleRowArguments(data: Bruker3D, ns: Option<string>, fs: FileSystem, num: Numbers)
    requires data.valid && (ns.Some? || data.File("nuslist") in fs) && Formattable(data, num)
    requires IsWord(data.x.n.value) && IsWord(data.y.n.value) && (ns.Some? ==> IsWord(ns.value))
    ensures var r := GenConversion(data, ns, fs, num);
      && r.ConversionScript?
      && var words := Split(r.lines[5]);
      && words == ["-xN", data.x.n.value, "-yN", data.y.n.value, "-zN", SampleCount(ns, if ns.Some? then [] else fs[data.File("nuslist")]), "\\"]
      && (ns.None? ==> DigitsValue(words[5]) == |fs[data.File("nuslist")]|)
  {
    var nuslist := if ns.Some? then [] else fs[data.File("nuslist")];
    var zN := SampleCount(ns, nuslist);
    ScriptPointCountRow(data, ns, fs, num);
    PointCountRowWords(data.x.n.value, data.y.n.value, zN);
    if ns.None? {
      NatToStringRoundTrip(|nuslist|);
    }
  }

  /** A produced conversion script carries the sample count on its point-count row. */
  lemma ScriptPointCountRow(data: Bruker3D, ns: Option<string>, fs: FileSystem, num: Numbers)
    requires data.valid && (ns.Some? || data.File("nuslist") in fs) && Formattable(data, num)
    ensures var r := GenConversion(data, ns, fs, num);
      && r.ConversionScript?
      && r.lines[5] == Row("N", 16, data.x.n.value, data.y.n.value, SampleCount(ns, if ns.Some? then [] else fs[data.File("nuslist")]))
  {
    var zN := SampleCount(ns, if ns.Some? then [] else fs[data.File("nuslist")]);
    assert GenConversion(data, ns, fs, num) == ConversionScript(ConversionLines(data, zN, num));
  }
}
