/**
  `Bruker3D.__init__` (masterHI.py:36-137): checks that a directory holds a Bruker
  3D data set, scans its pulse program for an Echo/Antiecho-in-t2 marker, and reads
  the acquisition parameters of the three axes from the JCAMP-style files acqus,
  acqu2s and acqu3s by a forward scan in which the last matching line wins.
*/
module Bruker {
  import opened Wrappers
  import opened Text

  /** The exceptions the script can raise; none is caught, so each one ends the run. */
  datatype Failure =
    | IndexError          // `line.split()[1]` on a matching line with fewer than two words
    | AttributeError      // a field read although no line ever set it
    | ValueError          // `float(x)` or `int(x)` on text that is not a number
    | ZeroDivisionError   // a carrier position over a zero base frequency
    | FileNotFoundError   // `open` of a file that is not there
    | TypeError           // `os.path.join` on a directory that is not a string
    | NameError           // a call of a name that is not defined

  /**
    Python's number parsing and float arithmetic, left uninterpreted: whether
    `float(s)` succeeds, whether its value is zero, the text of `round(float(s), 5)`,
    the text of `round(float(o1) / float(bf1), 5)`, and `int(s)`.
  */
  datatype Numbers = Numbers(
    isFloat: string -> bool,
    isZero: string -> bool,
    round5: string -> string,
    carRound5: (string, string) -> string,
    toInt: string -> Option<int>)

  /** The files the run can read: path to its lines, in order. */
  type FileSystem = map<string, seq<string>>

  /** `os.path.join(dir, name)` for a relative `name`. */
  function PathJoin(dir: string, name: string): (p: string)
    ensures |p| >= |name| && p[|p| - |name|..] == name
  {
    if dir == "" then name
    else if dir[|dir| - 1] == '/' then dir + name
    else dir + "/" + name
  }

  /** One axis of the acquisition; a field is None while no line (or constant) has set it. */
  datatype Axis = Axis(
    n: Option<string>,      // point count
    t: Option<string>,      // time-domain size
    sw: Option<string>,     // spectral width, Hz
    obs: Option<string>,    // observe frequency, MHz
    o1: Option<string>,     // offset frequency
    bf1: Option<string>,    // base frequency
    mode: Option<string>,
    lab: Option<string>,
    acq: Option<string>)    // FnMODE code of an indirect axis

  const Unread := Axis(None, None, None, None, None, None, None, None, None)

  /** What a `Bruker3D` object holds once its constructor returns. */
  datatype Bruker3D = Bruker3D(
    dir: string,
    valid: bool,
    t2EA: bool,
    decim: Option<string>,
    dspfvs: Option<string>,
    grpdly: Option<string>,
    x: Axis,
    y: Axis,
    z: Axis)
  {
    /** The path of one of the data set's files. */
    function File(name: string): string {
      PathJoin(dir, name)
    }
  }

  /** The six files that make a directory a Bruker 3D data set (masterHI.py:49-51). */
  predicate IsBruker3D(fs: FileSystem, dir: string) {
    && PathJoin(dir, "acqus") in fs
    && PathJoin(dir, "acqu2s") in fs
    && PathJoin(dir, "acqu3s") in fs
    && PathJoin(dir, "ser") in fs
    && PathJoin(dir, "pulseprogram") in fs
    && PathJoin(dir, "nuslist") in fs
  }

  /** Some pulse-program line names both Echo/Antiecho and t2 (masterHI.py:62-64). */
  predicate HasT2EchoAntiecho(lines: seq<string>) {
    exists i :: 0 <= i < |lines| && Contains(lines[i], "Echo/Antiecho") && Contains(lines[i], "t2")
  }

  /** `line.split()[1]`, where there is one. */
  function SecondWord(line: string): string {
    var w := Split(line);
    if |w| >= 2 then w[1] else ""
  }

  /**
    The field a forward scan leaves behind for `tag`: the second word of the last
    line that contains `tag`, or None when no line does.
  */
  function LastValue(lines: seq<string>, tag: string): (r: Option<string>)
    ensures r.Some? ==> exists line :: line in lines && Contains(line, tag) && r.value == SecondWord(line)
  {
    if lines == [] then None
    else
      var line := lines[|lines| - 1];
      if Contains(line, tag) then Some(SecondWord(line)) else LastValue(lines[..|lines| - 1], tag)
  }

  /** A line that contains a tag but has no second word: `split()[1]` raises on it. */
  predicate BadLine(line: string, tags: set<string>) {
    |Split(line)| < 2 && exists tag :: tag in tags && Contains(line, tag)
  }

  predicate WellFormed(lines: seq<string>, tags: set<string>) {
    forall i :: 0 <= i < |lines| ==> !BadLine(lines[i], tags)
  }

  /** A constant the scan loop assigns on every line: set once the file has a line. */
  function EveryLine(lines: seq<string>, v: string): Option<string> {
    if lines == [] then None else Some(v)
  }

  const AcqusTags: set<string> :=
    {"DECIM", "DSPFVS", "GRPDLY", "##$TD= ", "##$WBST= ", "##$SW_h= ", "##$SFO1= ", "##$O1= ", "##$BF1= "}

  const IndirectTags: set<string> := {"##$SW_h= ", "##$SFO1= ", "##$O1= ", "##$BF1= ", "##$FnMODE= "}

  datatype Direct = Direct(decim: Option<string>, dspfvs: Option<string>, grpdly: Option<string>, x: Axis)

  /** What the scan of acqus yields (masterHI.py:69-90). */
  function ReadAcqus(lines: seq<string>): Result<Direct, Failure> {
    if !WellFormed(lines, AcqusTags) then Err(IndexError)
    else Ok(Direct(
      LastValue(lines, "DECIM"), LastValue(lines, "DSPFVS"), LastValue(lines, "GRPDLY"),
      Axis(
        n := LastValue(lines, "##$TD= "), t := LastValue(lines, "##$WBST= "),
        sw := LastValue(lines, "##$SW_h= "), obs := LastValue(lines, "##$SFO1= "),
        o1 := LastValue(lines, "##$O1= "), bf1 := LastValue(lines, "##$BF1= "),
        mode := EveryLine(lines, "DQD"), lab := EveryLine(lines, "H"), acq := None)))
  }

  /**
    What the scan of acqu2s or acqu3s yields (masterHI.py:93-133): the point count
    `n` and the label are the axis's constants, the time-domain size is 2 and the
    mode 'Real'; the rest is read from the file.
  */
  function ReadIndirect(lines: seq<string>, n: string, lab: string): Result<Axis, Failure> {
    if !WellFormed(lines, IndirectTags) then Err(IndexError)
    else Ok(Axis(
      n := EveryLine(lines, n), t := EveryLine(lines, "2"),
      sw := LastValue(lines, "##$SW_h= "), obs := LastValue(lines, "##$SFO1= "),
      o1 := LastValue(lines, "##$O1= "), bf1 := LastValue(lines, "##$BF1= "),
      mode := EveryLine(lines, "Real"), lab := EveryLine(lines, lab),
      acq := LastValue(lines, "##$FnMODE= ")))
  }

  /** Why `float(O1) / float(BF1)` raises for an axis, if it does (masterHI.py:135-137). */
  function CarFailure(num: Numbers, a: Axis): Option<Failure> {
    if a.o1.None? then Some(AttributeError)
    else if !num.isFloat(a.o1.value) then Some(ValueError)
    else if a.bf1.None? then Some(AttributeError)
    else if !num.isFloat(a.bf1.value) then Some(ValueError)
    else if num.isZero(a.bf1.value) then Some(ZeroDivisionError)
    else None
  }

  /** A carrier position can be computed for the axis. */
  predicate HasCarrier(num: Numbers, a: Axis) {
    a.o1.Some? && a.bf1.Some? && num.isFloat(a.o1.value) && num.isFloat(a.bf1.value) && !num.isZero(a.bf1.value)
  }

  /** The constructor of `Bruker3D` as a value: the object, or the exception it raises. */
  function Load(fs: FileSystem, dir: string, num: Numbers): (r: Result<Bruker3D, Failure>)
    ensures !IsBruker3D(fs, dir) ==> r == Ok(Bruker3D(dir, false, false, None, None, None, Unread, Unread, Unread))
    ensures r.Ok? ==> r.value.dir == dir && (r.value.valid <==> IsBruker3D(fs, dir))
    ensures r.Ok? && r.value.valid ==>
      && HasCarrier(num, r.value.x) && HasCarrier(num, r.value.y) && HasCarrier(num, r.value.z)
      && r.value.x.mode == Some("DQD") && r.value.x.lab == Some("H")
      && r.value.y.n == Some("4") && r.value.y.t == Some("2") && r.value.y.mode == Some("Real") && r.value.y.lab == Some("N")
      && r.value.z.n == Some("0") && r.value.z.t == Some("2") && r.value.z.mode == Some("Real") && r.value.z.lab == Some("C")
  {
    if !IsBruker3D(fs, dir) then Ok(Bruker3D(dir, false, false, None, None, None, Unread, Unread, Unread))
    else
      var t2EA := HasT2EchoAntiecho(fs[PathJoin(dir, "pulseprogram")]);
      match ReadAcqus(fs[PathJoin(dir, "acqus")])
      case Err(e) => Err(e)
      case Ok(d) =>
        match ReadIndirect(fs[PathJoin(dir, "acqu2s")], "4", "N")
        case Err(e) => Err(e)
        case Ok(y) =>
          match ReadIndirect(fs[PathJoin(dir, "acqu3s")], "0", "C")
          case Err(e) => Err(e)
          case Ok(z) =>
            if CarFailure(num, d.x).Some? then Err(CarFailure(num, d.x).value)
            else if CarFailure(num, y).Some? then Err(CarFailure(num, y).value)
            else if CarFailure(num, z).Some? then Err(CarFailure(num, z).value)
            else Ok(Bruker3D(dir, true, t2EA, d.decim, d.dspfvs, d.grpdly, d.x, y, z))
  }

  /** The field stays unset exactly when no line contains its tag. */
  lemma {:induction false} LastValueUnset(lines: seq<string>, tag: string)
    ensures LastValue(lines, tag).None? <==> forall i :: 0 <= i < |lines| ==> !Contains(lines[i], tag)
    decreases |lines|
  {
    if lines != [] {
      var front := lines[..|lines| - 1];
      LastValueUnset(front, tag);
      assert forall i :: 0 <= i < |front| ==> front[i] == lines[i];
    }
  }

  /** The last line that contains the tag decides the field: last match wins. */
  lemma {:induction false} LastValueLastMatch(lines: seq<string>, tag: string, i: nat)
    requires i < |lines| && Contains(lines[i], tag)
    requires forall j :: i < j < |lines| ==> !Contains(lines[j], tag)
    ensures LastValue(lines, tag) == Some(SecondWord(lines[i]))
    decreases |lines|
  {
    if i < |lines| - 1 {
      var front := lines[..|lines| - 1];
      assert forall j :: 0 <= j < |front| ==> front[j] == lines[j];
      LastValueLastMatch(front, tag, i);
    }
  }

  /** A line without the tag changes nothing, wherever it stands. */
  lemma {:induction false} LastValueSkipsUntagged(a: seq<string>, line: string, b: seq<string>, tag: string)
    requires !Contains(line, tag)
    ensures LastValue(a + [line] + b, tag) == LastValue(a + b, tag)
    decreases |b|
  {
    if b == [] {
      assert (a + [line] + b)[..|a|] == a;
      assert a + b == a;
    } else {
      var b' := b[..|b| - 1];
      LastValueSkipsUntagged(a, line, b', tag);
      assert (a + [line] + b)[..|a + [line] + b| - 1] == a + [line] + b';
      assert (a + b)[..|a + b| - 1] == a + b';
    }
  }

  /** A record `KEY= value` splits into the two words. */
  lemma RecordWords(key: string, value: string)
    requires IsWord(key) && IsWord(value)
    ensures Split(key + " " + value) == [key, value]
  {
    SplitWord(value, "");
    assert value + "" == value;
    SplitAfterSpaces(" ", value);
    SplitWord(key, " " + value);
    assert key + " " + value == key + (" " + value);
  }

  /**
    A JCAMP record `KEY= value` read last sets the field to `value` under the tag
    `KEY= ` (with its trailing blank, as masterHI.py writes the tags).
  */
  lemma JcampRecordSets(lines: seq<string>, key: string, value: string)
    requires IsWord(key) && IsWord(value)
    ensures LastValue(lines + [key + " " + value], key + " ") == Some(value)
  {
    var line := key + " " + value;
    RecordWords(key, value);
    ContainsInfix("", key + " ", value);
    assert "" + (key + " ") + value == line;
    assert (lines + [line])[..|lines|] == lines;
  }

  /** The pulse-program scan of masterHI.py:59-64. */
  method ScanPulseProgram(lines: seq<string>) returns (t2EA: bool)
    ensures t2EA <==> HasT2EchoAntiecho(lines)
  {
    t2EA := false;
    for i := 0 to |lines|
      invariant t2EA <==> exists j :: 0 <= j < i && Contains(lines[j], "Echo/Antiecho") && Contains(lines[j], "t2")
    {
      if Contains(lines[i], "Echo/Antiecho") && Contains(lines[i], "t2") {
        t2EA := true;
      }
    }
  }

  /** One step of a scan: the last value over one more line. */
  lemma LastValueStep(lines: seq<string>, i: nat, tag: string)
    requires i < |lines|
    ensures LastValue(lines[..i + 1], tag)
         == if Contains(lines[i], tag) then Some(SecondWord(lines[i])) else LastValue(lines[..i], tag)
  {
    assert lines[..i + 1][..i] == lines[..i];
  }

  /**
    One `if tag in line: field = line.split()[1]` of a scan: the field afterwards,
    or `raises` when the line holds the tag but no second word.
  */
  method ReadTag(line: string, words: seq<string>, tag: string, field: Option<string>)
    returns (field': Option<string>, raises: bool)
    requires words == Split(line)
    ensures raises <==> Contains(line, tag) && |words| < 2
    ensures !raises ==> field' == if Contains(line, tag) then Some(SecondWord(line)) else field
  {
    field', raises := field, false;
    if Contains(line, tag) {
      if |words| < 2 {
        return field, true;
      }
      field' := Some(words[1]);
    }
  }

  lemma WellFormedStep(lines: seq<string>, i: nat, tags: set<string>)
    requires i < |lines| && WellFormed(lines[..i], tags) && !BadLine(lines[i], tags)
    ensures WellFormed(lines[..i + 1], tags)
  {
    assert lines[..i + 1] == lines[..i] + [lines[i]];
  }

  /** A line that would make `split()[1]` raise makes the whole file unreadable. */
  lemma BadLineRaises(lines: seq<string>, i: nat, tags: set<string>)
    requires i < |lines| && BadLine(lines[i], tags)
    ensures !WellFormed(lines, tags)
  {
  }

  /** A line holding none of the acqus tags cannot make the scan raise. */
  lemma UntaggedAcqusLine(line: string)
    requires !Contains(line, "DECIM") && !Contains(line, "DSPFVS") && !Contains(line, "GRPDLY")
    requires !Contains(line, "##$TD= ") && !Contains(line, "##$WBST= ") && !Contains(line, "##$SW_h= ")
    requires !Contains(line, "##$SFO1= ") && !Contains(line, "##$O1= ") && !Contains(line, "##$BF1= ")
    ensures !BadLine(line, AcqusTags)
  {
  }

  /** A line holding none of the acqu2s/acqu3s tags cannot make the scan raise. */
  lemma UntaggedIndirectLine(line: string)
    requires !Contains(line, "##$SW_h= ") && !Contains(line, "##$SFO1= ") && !Contains(line, "##$O1= ")
    requires !Contains(line, "##$BF1= ") && !Contains(line, "##$FnMODE= ")
    ensures !BadLine(line, IndirectTags)
  {
  }

  /** The scan of acqus (masterHI.py:69-90), stopping where `split()[1]` would raise. */
  method ScanAcqus(lines: seq<string>) returns (r: Result<Direct, Failure>)
    ensures r == ReadAcqus(lines)
  {
    var decim, dspfvs, grpdly, n, t, sw, obs, o1, bf1, mode, lab :=
      None, None, None, None, None, None, None, None, None, None, None;
    for i := 0 to |lines|
      invariant WellFormed(lines[..i], AcqusTags)
      invariant decim == LastValue(lines[..i], "DECIM") && dspfvs == LastValue(lines[..i], "DSPFVS")
      invariant grpdly == LastValue(lines[..i], "GRPDLY") && n == LastValue(lines[..i], "##$TD= ")
      invariant t == LastValue(lines[..i], "##$WBST= ") && sw == LastValue(lines[..i], "##$SW_h= ")
      invariant obs == LastValue(lines[..i], "##$SFO1= ") && o1 == LastValue(lines[..i], "##$O1= ")
      invariant bf1 == LastValue(lines[..i], "##$BF1= ")
      invariant mode == EveryLine(lines[..i], "DQD") && lab == EveryLine(lines[..i], "H")
    {
      var line := lines[i];
      var words := Split(line);
      var raises;
      decim, raises := ReadTag(line, words, "DECIM", decim);
      if raises {
        BadLineRaises(lines, i, AcqusTags);
        return Err(IndexError);
      }
      dspfvs, raises := ReadTag(line, words, "DSPFVS", dspfvs);
      if raises {
        BadLineRaises(lines, i, AcqusTags);
        return Err(IndexError);
      }
      grpdly, raises := ReadTag(line, words, "GRPDLY", grpdly);
      if raises {
        BadLineRaises(lines, i, AcqusTags);
        return Err(IndexError);
      }
      n, raises := ReadTag(line, words, "##$TD= ", n);
      if raises {
        BadLineRaises(lines, i, AcqusTags);
        return Err(IndexError);
      }
      t, raises := ReadTag(line, words, "##$WBST= ", t);
      if raises {
        BadLineRaises(lines, i, AcqusTags);
        return Err(IndexError);
      }
      sw, raises := ReadTag(line, words, "##$SW_h= ", sw);
      if raises {
        BadLineRaises(lines, i, AcqusTags);
        return Err(IndexError);
      }
      obs, raises := ReadTag(line, words, "##$SFO1= ", obs);
      if raises {
        BadLineRaises(lines, i, AcqusTags);
        return Err(IndexError);
      }
      o1, raises := ReadTag(line, words, "##$O1= ", o1);
      if raises {
        BadLineRaises(lines, i, AcqusTags);
        return Err(IndexError);
      }
      bf1, raises := ReadTag(line, words, "##$BF1= ", bf1);
      if raises {
        BadLineRaises(lines, i, AcqusTags);
        return Err(IndexError);
      }
      mode, lab := Some("DQD"), Some("H");
      if |words| < 2 {
        UntaggedAcqusLine(line);
      }
      WellFormedStep(lines, i, AcqusTags);
      LastValueStep(lines, i, "DECIM");
      LastValueStep(lines, i, "DSPFVS");
      LastValueStep(lines, i, "GRPDLY");
      LastValueStep(lines, i, "##$TD= ");
      LastValueStep(lines, i, "##$WBST= ");
      LastValueStep(lines, i, "##$SW_h= ");
      LastValueStep(lines, i, "##$SFO1= ");
      LastValueStep(lines, i, "##$O1= ");
      LastValueStep(lines, i, "##$BF1= ");
    }
    assert lines[..|lines|] == lines;
    r := Ok(Direct(decim, dspfvs, grpdly, Axis(n, t, sw, obs, o1, bf1, mode, lab, None)));
  }

  /** The scan of acqu2s or acqu3s (masterHI.py:93-133). */
  method ScanIndirect(lines: seq<string>, axisN: string, axisLab: string) returns (r: Result<Axis, Failure>)
    ensures r == ReadIndirect(lines, axisN, axisLab)
  {
    var sw, obs, o1, bf1, acq, n, t, mode, lab := None, None, None, None, None, None, None, None, None;
    for i := 0 to |lines|
      invariant WellFormed(lines[..i], IndirectTags)
      invariant sw == LastValue(lines[..i], "##$SW_h= ") && obs == LastValue(lines[..i], "##$SFO1= ")
      invariant o1 == LastValue(lines[..i], "##$O1= ") && bf1 == LastValue(lines[..i], "##$BF1= ")
      invariant acq == LastValue(lines[..i], "##$FnMODE= ")
      invariant n == EveryLine(lines[..i], axisN) && t == EveryLine(lines[..i], "2")
      invariant mode == EveryLine(lines[..i], "Real") && lab == EveryLine(lines[..i], axisLab)
    {
      var line := lines[i];
      var words := Split(line);
      var raises;
      sw, raises := ReadTag(line, words, "##$SW_h= ", sw);
      if raises {
        BadLineRaises(lines, i, IndirectTags);
        return Err(IndexError);
      }
      obs, raises := ReadTag(line, words, "##$SFO1= ", obs);
      if raises {
        BadLineRaises(lines, i, IndirectTags);
        return Err(IndexError);
      }
      o1, raises := ReadTag(line, words, "##$O1= ", o1);
      if raises {
        BadLineRaises(lines, i, IndirectTags);
        return Err(IndexError);
      }
      bf1, raises := ReadTag(line, words, "##$BF1= ", bf1);
      if raises {
        BadLineRaises(lines, i, IndirectTags);
        return Err(IndexError);
      }
      acq, raises := ReadTag(line, words, "##$FnMODE= ", acq);
      if raises {
        BadLineRaises(lines, i, IndirectTags);
        return Err(IndexError);
      }
      n, t, mode, lab := Some(axisN), Some("2"), Some("Real"), Some(axisLab);
      if |words| < 2 {
        UntaggedIndirectLine(line);
      }
      WellFormedStep(lines, i, IndirectTags);
      LastValueStep(lines, i, "##$SW_h= ");
      LastValueStep(lines, i, "##$SFO1= ");
      LastValueStep(lines, i, "##$O1= ");
      LastValueStep(lines, i, "##$BF1= ");
      LastValueStep(lines, i, "##$FnMODE= ");
    }
    assert lines[..|lines|] == lines;
    r := Ok(Axis(n, t, sw, obs, o1, bf1, mode, lab, acq));
  }

  /** The constructor `Bruker3D(data)`: validity check, scans, then the three carrier positions. */
  method Open(fs: FileSystem, dir: string, num: Numbers) returns (r: Result<Bruker3D, Failure>)
    ensures r == Load(fs, dir, num)
  {
    if !IsBruker3D(fs, dir) {
      return Ok(Bruker3D(dir, false, false, None, None, None, Unread, Unread, Unread));
    }
    var t2EA := ScanPulseProgram(fs[PathJoin(dir, "pulseprogram")]);
    var direct := ScanAcqus(fs[PathJoin(dir, "acqus")]);
    if direct.Err? {
      return Err(direct.error);
    }
    var y := ScanIndirect(fs[PathJoin(dir, "acqu2s")], "4", "N");
    if y.Err? {
      return Err(y.error);
    }
    var z := ScanIndirect(fs[PathJoin(dir, "acqu3s")], "0", "C");
    if z.Err? {
      return Err(z.error);
    }
    var failure := CarFailure(num, direct.value.x);
    if failure.None? {
      failure := CarFailure(num, y.value);
    }
    if failure.None? {
      failure := CarFailure(num, z.value);
    }
    if failure.Some? {
      return Err(failure.value);
    }
    r := Ok(Bruker3D(dir, true, t2EA, direct.value.decim, direct.value.dspfvs, direct.value.grpdly,
                     direct.value.x, y.value, z.value));
  }
}
