# masterHI.py: hmsIST processing workflow for Bruker 3D non-uniformly sampled data

masterHI.py takes a Bruker 3D data set that was sampled non-uniformly and turns it
into a reconstructed nmrPipe spectrum. It does this in four stages, each selected by
a command-line flag. Each stage writes a shell or Python script and runs it:

1. `--conv` writes `fid.com`, the bruk2pipe conversion to nmrPipe format.
2. `--phasecheck` writes `ft1xyz.com`, which transforms the first sampled point so
   the direct-dimension phases can be checked by eye.
3. `--recon` writes four files and prepares the sample list `nuslist.used`:
   - `ft1yzx.com`, the direct-dimension transform of every plane;
   - `recon.py`, a process-pool driver;
   - `ist.com`, the per-plane hmsIST reconstruction;
   - `phf2pipe.com`.
4. `--ft23` writes `ft23.com`, the transform of the two indirect dimensions.

Between runs the options and four "stage done" flags are pickled into
`.masterHI.config`. A stage refuses to run until the stage it depends on has
succeeded.

The model has four modules, plus `Wrappers` (wrappers.dfy) for the `Option` and `Result` types they share:

- `Text`: the string operations the program relies on.
  - Python's `in` on strings.
  - `str.split()`.
  - Right-aligned `format` padding.
  - `str` of a line count, with its inverse.
- `Bruker`: the `Bruker3D` constructor, in two forms.
  - `Load`: a pure function from the file contents to the object or the exception
    raised.
  - `Open`: the line-by-line scans, written as loops and proved equal to `Load`.

  Reading a JCAMP file is specified as "the last line that carries the tag wins", and
  its properties are proved.
- `Scripts`: the five script generators (`genConversion`, `genDirectPhaseCheck`,
  `genPrepare`, `genRecon`, `genFT23`), each as a function returning the script's
  lines, with lemmas stating:
  - which processing step each option selects;
  - which exception the conversion raises.
- `Workflow`: the module-level code.
  - `Options` is a class whose fields the stage methods update one by one.
  - `Run` loads or creates the options, runs the requested stages and saves. It is
    proved equal to the pure `Invocation`.
  - Lemmas over `Invocation` and its stages state:
    - the consistency of the saved flags;
    - which options each stage may change;
    - that a refused stage changes nothing;
    - the contents of `nuslist.used`;
    - that a run without options changes nothing.

The environment is a parameter, `Env`:

- the files that exist, with their lines;
- Python's float parsing and rounding, left uninterpreted (`Numbers`);
- whether `yzx_ist` is a directory.

The effect of a run is an `Outcome`:

- the options saved afterwards;
- the scripts written, as each file's new contents;
- the shell commands run, in order;
- the exception that ended the run, if one did.

Behaviours of masterHI.py that the model keeps:

- A lone `--xN` or `--yN` leaves both saved counts as they were
  (`MergeReconPointCounts`). From a fresh configuration those counts are both unset,
  so the result is automatic mode. After an earlier explicit pair it is that pair.
- Options are not re-saved when a run ends in an exception. Every exception aborts
  the program before the final `pickle.dump` (`Invocation`).
- Exit statuses of the scripts run with `os.system` are ignored. A stage marks itself
  done once it has run its script, whatever the script did.

## Model

| member | source | states |
|---|---|---|
| Bruker.PathJoin | masterHI.py:38-43 | each data file's path ends with the file's own name |
| Bruker.Load | masterHI.py:36-137 | a directory missing any of the six Bruker files yields an invalid object with nothing read. Otherwise the object is valid exactly when all six files exist. A valid object has a computable carrier for all three axes and the fixed direct-axis mode/label and indirect-axis sizes, modes and labels |
| Bruker.Open | masterHI.py:36-137 | the constructor's file scans yield exactly `Load`: the object, or the exception raised |
| Bruker.ScanPulseProgram | masterHI.py:57-64 | t2EA is set exactly when some pulse-program line mentions both Echo/Antiecho and t2 |
| Bruker.ReadTag | masterHI.py:71-72 | one tag test raises exactly when the line has the tag but no second word. Otherwise the field becomes the second word when the tag is present, and is unchanged when it is absent |
| Bruker.ScanAcqus | masterHI.py:69-90 | the acqus scan raises IndexError on a tagged line without a value. Otherwise each field is the value of the last line carrying its tag, and mode and label are set once the file has a line |
| Bruker.ScanIndirect | masterHI.py:93-133 | the acqu2s/acqu3s scan has the same error case; the indirect axis's constants are set by every line |
| Bruker.LastValue | masterHI.py:69-88 | a field that is set holds the second word of some line of the file that carries the field's tag |
| Bruker.LastValueUnset | masterHI.py:69-88 | a field stays unset exactly when no line carries its tag |
| Bruker.LastValueLastMatch | masterHI.py:69-88 | the last line carrying a tag decides the field |
| Bruker.LastValueSkipsUntagged | masterHI.py:99-108 | a line without the tag, wherever it stands, does not change the field |
| Bruker.JcampRecordSets | masterHI.py:81-82 | a final JCAMP record `KEY= value` sets the field read under the tag `KEY= ` to exactly `value` |
| Text.Contains | masterHI.py:63 | Python's `t in s`: a string contained in another is no longer than it, and the empty string is contained in every string |
| Text.ContainsOccurrence | masterHI.py:63 | `t in s` holds exactly when `t` occurs in `s` at some index: both directions of what `in` means |
| Text.SplitWords | masterHI.py:72 | `str.split()`: every element is a non-empty word without whitespace |
| Text.NatToStringRoundTrip | masterHI.py:310-313 | the sample count written as text reads back as the number of nuslist lines |
| Text.SplitLayout | masterHI.py:72 | `split()` of words laid out with whitespace between them gives back exactly those words |
| Text.SplitAppend | masterHI.py:72 | two strings joined at whitespace split into the words of the first followed by the words of the second |
| Text.PadLeft | masterHI.py:324 | right alignment in a field of width w: length max(w, len), the value at the end, spaces before it |
| Scripts.PhaseCheckScript | masterHI.py:143-156 | the phase check has 10 lines with EXT and 9 without |
| Scripts.PhaseCheckScriptSteps | masterHI.py:143-156 | the phase check is a csh script that applies the given phase coefficients, includes EXT exactly when asked, and writes data001.dat |
| Scripts.PrepareScript | masterHI.py:209-225 | the prepare script has 12 lines with EXT and 11 without |
| Scripts.PrepareScriptSteps | masterHI.py:209-225 | the prepare script applies the given phases, includes EXT exactly when asked, and ends by writing yzx planes and emptying yzx_ist |
| Scripts.PrepareRepeatsPhaseCheckChain | masterHI.py:215-221 | the prepare script runs exactly the processing chain of the phase check, so the phases checked are the phases applied |
| Scripts.Ft23Script | masterHI.py:163-198 | the final-transform script has 19 lines |
| Scripts.Ft23ScriptTransforms | masterHI.py:171-190 | each indirect axis's FT variant, as iffs: triple resolution gives negated then alternated; otherwise code 6 negates, 5 alternates, any other code is plain |
| Scripts.TriplerezIgnoresCodes | masterHI.py:171-190 | with triple resolution the script does not depend on the acquisition codes |
| Scripts.Ft23AxesIndependent | masterHI.py:171-190 | each axis's transform depends on its own code only, and every other line is fixed |
| Scripts.GenRecon | masterHI.py:232-300 | the three reconstruction scripts: recon.py starts with the fixed driver body, ist.com with the fixed csh header and has its hmsIST line exactly when the point counts are paired, and phf2pipe.com is fixed |
| Scripts.ReconDriver | masterHI.py:234-270 | recon.py is the fixed body plus the pool and the map line |
| Scripts.ReconDriverPool | masterHI.py:266-270 | the pool uses every core exactly when the process count is 0 or unset. Otherwise it has exactly the given count of processes. The rest of recon.py is fixed |
| Scripts.IstLine | masterHI.py:282-289 | an hmsIST line exists exactly when xN and yN are both zero or both non-zero |
| Scripts.IstLineChoices | masterHI.py:282-289 | the four branches are two independent choices: auto or explicit point counts, and 250 or the given iteration count |
| Scripts.IstScript | masterHI.py:275-293 | ist.com has the hmsIST line exactly when the point counts are paired |
| Scripts.IstScriptLayout | masterHI.py:276-289 | ist.com is the fixed csh header followed by the hmsIST line, when there is one |
| Scripts.Then | masterHI.py:320-342 | formatting a field raises nothing exactly when it is set and, when numeric, parses as a float |
| Scripts.ConversionFailure | masterHI.py:320-342 | the conversion's formatting raises nothing exactly when every field it formats is readable |
| Scripts.ConversionLines | masterHI.py:315-350 | the conversion script has 15 lines, and its sixth is the point-count row with zN in the `-zN` column |
| Scripts.ConversionLinesLayout | masterHI.py:315-350 | the script starts with csh and ends writing the fid files. The echo/antiecho macro is active exactly when t2EA is set and commented out otherwise. The point-count row carries the sample count |
| Scripts.GenConversion | masterHI.py:304-307 | an invalid data set gives the "not Bruker" return, and only an invalid one does |
| Scripts.GenConversionOutcome | masterHI.py:304-350 | for valid data a script is produced exactly when the sample count is known (given, or the nuslist exists) and every field formats. That script's layout holds, and its zN is the override or the nuslist's line count |
| Scripts.RowWords | masterHI.py:324-341 | a bruk2pipe parameter row, with single-word values, reaches the shell as the words `-xK x -yK y -zK z \`, whatever the padding |
| Scripts.ScriptPointCountRow | masterHI.py:309-326 | a produced conversion script's sixth line is the point-count row carrying the override, or else the nuslist's line count, as zN |
| Scripts.SampleRowArguments | masterHI.py:309-326 | in the point-count row of fid.com, the word after `-zN` is the sample count; a count taken from the nuslist reads back as its number of lines |
| Workflow.Options.constructor | masterHI.py:357-374 | `Options()` holds the defaults: nothing set, no stage done |
| Workflow.Options.Restore | masterHI.py:378-380 | the unpickled object holds exactly the saved options |
| Workflow.OpenSetting | masterHI.py:416 | `Bruker3D(savedargs.dir)` is the loaded object, or TypeError when the directory is not a string |
| Workflow.ConversionDir | masterHI.py:389-394 | the conversion directory is --dir if given, else the saved one if set, else "."; it is always a non-empty string, and no other option changes |
| Workflow.ConversionDirStep | masterHI.py:389-394 | the in-place updates leave exactly `ConversionDir` of the old options |
| Workflow.ConvertStep | masterHI.py:387-409 | the conversion stage's updates of the options, files, commands and exception are exactly `Convert` |
| Workflow.ConvertLoadedStep | masterHI.py:397-409 | after the object is built: --nsamples is merged, fid.com is written and run, and the data set is marked converted, exactly as `ConvertLoaded` |
| Workflow.MergePhasesIndependent | masterHI.py:418-433 | the three merge branches amount to: each phase overridden independently when given, EXT choice always taken |
| Workflow.MergePhasesStep | masterHI.py:418-433 | the in-place merge leaves exactly `MergePhases` of the old options |
| Workflow.PhaseStep | masterHI.py:413-445 | the phase-check stage is exactly `Phase`, refusing before a conversion |
| Workflow.PhaseLoadedStep | masterHI.py:416-441 | merging, writing and running ft1xyz.com, displaying, and marking phased, exactly as `PhaseLoaded` |
| Workflow.MergeReconPointCounts | masterHI.py:460-470 | --autoN zeroes both point counts and wins. A pair of counts is stored together. A lone count changes nothing. proc/itr are overridden when given, and no other option changes |
| Workflow.MergeReconStep | masterHI.py:460-470 | the in-place merge leaves exactly `MergeRecon` of the old options |
| Workflow.PrepareSettingsStep | masterHI.py:451-453 | the in-place updates leave exactly `PrepareSettings` of the old options |
| Workflow.PrepareStep | masterHI.py:451-458 | ft1yzx.com is written from the merged phases and EXT choice and run, exactly as `Prepare` |
| Workflow.ReconScriptsStep | masterHI.py:460-476 | the reconstruction options are merged and recon.py, ist.com and phf2pipe.com written, exactly as `ReconScripts` |
| Workflow.FirstSamples | masterHI.py:482-485 | the lines written are the first n sample lines, none when n is not positive |
| Workflow.WriteSamples | masterHI.py:482-485 | the write loop writes the first n lines. When n exceeds the list it writes every line and then raises IndexError |
| Workflow.SamplesStep | masterHI.py:476-493 | nuslist.copy/nuslist.used are written and the reconstruction is run and marked done, exactly as `Samples` |
| Workflow.ReconStep | masterHI.py:446-495 | the reconstruction stage is exactly `Recon`, refusing before a phase check |
| Workflow.ReconLoadedStep | masterHI.py:450-493 | prepare, scripts, then sample lists, exactly as `ReconLoaded` |
| Workflow.Ft23Step | masterHI.py:497-509 | the final-transform stage is exactly the corrected `Ft23`, refusing before a reconstruction |
| Workflow.Ft23LoadedStep | masterHI.py:499-504 | --triplerez is merged. AttributeError is raised when an acquisition code was never read. Otherwise ft23.com is written and run |
| Workflow.Invocation | masterHI.py:378-512 | a run that ends in an exception leaves the saved options as they were (the `pickle.dump` of masterHI.py:511-512 is never reached). A run that does not raise always saves |
| Workflow.InvocationAsWritten | masterHI.py:378-512 | the program as written differs from the corrected run only when --ft23 is given, and then it ends in NameError with nothing saved |
| Workflow.Ft23AsWritten | masterHI.py:497-509 | the final-transform stage as written differs from the corrected one only by raising NameError, and only when --ft23 is asked for before a reconstruction |
| Workflow.Run | masterHI.py:378-512 | one run on an `Options` object yields exactly `Invocation`: load or default, the four stages in order, then save |
| Workflow.DefaultsConsistent | masterHI.py:357-374 | a fresh `Options()` satisfies the flag invariants |
| Workflow.ConvertedConfig | masterHI.py:404-408 | only a produced script marks the data set converted; otherwise the options are untouched |
| Workflow.ConvertLoadedConfig | masterHI.py:397-408 | after conversion the options are the merged ones, possibly marked converted |
| Workflow.ConvertKeepsConsistent | masterHI.py:387-408 | the conversion keeps the flag invariants and clears no flag |
| Workflow.PhaseLoadedConfig | masterHI.py:415-441 | the phase check either changes nothing or leaves the merged phases marked phased |
| Workflow.PhaseMarksPhased | masterHI.py:415-441 | a phase check past its guard succeeds exactly when the data set loads. It then marks the data set phased and writes ft1xyz.com; otherwise it changes no option and writes nothing |
| Workflow.PhaseKeepsConsistent | masterHI.py:413-444 | the phase check keeps the flag invariants and clears no flag |
| Workflow.MergeReconKeepsPairs | masterHI.py:464-470 | the merge keeps xN and yN zero together |
| Workflow.SamplesConfig | masterHI.py:476-493 | writing the sample lists changes no option except marking the reconstruction done |
| Workflow.PrepareSettingsFrame | masterHI.py:451-453 | preparing sets the EXT choice, takes --nsamples when given and keeps the saved count otherwise, and changes no other option |
| Workflow.PrepareConfig | masterHI.py:451-453 | the prepare step changes the options exactly by `PrepareSettings` |
| Workflow.ReconScriptsConfig | masterHI.py:460-472 | writing the reconstruction scripts changes the options exactly by `MergeRecon` |
| Workflow.ReconLoadedConfig | masterHI.py:450-493 | a reconstruction leaves the options unchanged, merged, or merged and marked done |
| Workflow.ReconConfigKeepsConsistent | masterHI.py:448-493 | merged reconstruction options keep the flag invariants and clear no flag |
| Workflow.ReconLoadedKeepsConsistent | masterHI.py:450-493 | the reconstruction after loading keeps the flag invariants |
| Workflow.ReconKeepsConsistent | masterHI.py:446-495 | the reconstruction stage keeps the flag invariants and clears no flag |
| Workflow.Ft23Config | masterHI.py:497-509 | the final transform changes nothing but --triplerez |
| Workflow.ConvertFrame | masterHI.py:387-408 | the conversion changes only the directory, the sample count and its own flag |
| Workflow.PhaseFrame | masterHI.py:413-444 | the phase check changes only the phases, the EXT choice and its own flag |
| Workflow.ReconFrame | masterHI.py:446-495 | the reconstruction changes only EXT, the sample count, proc/itr/xN/yN/autoN and its own flag |
| Workflow.ReconConfigFrame | masterHI.py:451-470 | the options a reconstruction ends with differ only in those fields |
| Workflow.Ft23Frame | masterHI.py:497-509 | the final transform changes only the triple-resolution choice, and beenFT23 is never set |
| Workflow.InvocationKeepsConsistent | masterHI.py:378-512 | whatever the command line and files, a run from a consistent or absent configuration saves a consistent one and keeps every flag it started with |
| Workflow.ReconAlwaysRunsHmsIst | masterHI.py:464-472 | from consistent options, ist.com always contains its hmsIST command |
| Workflow.NoArgsChangesNothing | masterHI.py:378-512 | a run with no options writes nothing, runs nothing and saves the options unchanged |
| Workflow.ConvertWritesFid | masterHI.py:398-408 | fid.com is written exactly when commands are run. It is then run, and the data set is marked converted. The flag is set only that way |
| Workflow.SamplesUsed | masterHI.py:476-487 | nuslist.used is always a prefix of the sample list. It is all of it when no sample count is saved (the count tested is the saved one, which a --nsamples of an earlier run still holds), all of it on IndexError, and max(n, 0) lines on success. The stage is marked done exactly when no error occurs |
| Workflow.RefusedStagesChangeNothing | masterHI.py:413-509 | a stage requested before its predecessor has succeeded changes nothing |
| Workflow.Ft23RefusalLosesOptions | masterHI.py:508-512 | as written, a refused final transform raises NameError and the run's options are not saved. With the correction they are saved |
| Workflow.Ft23FirstRun | masterHI.py:509 | `--ft23` on a fresh directory: as written it saves nothing and raises NameError; corrected it saves the defaults |

## Left out

- Script execution: `os.system`, `chmod`, `nmrDraw` and the scripts themselves are recorded as commands, never run. Their exit statuses are ignored, as the program ignores them.
- recon.py and hmsIST: the runtime behaviour of the generated scripts (process pool, progress bar, reconstruction) is not modelled. Only their text is.
- Console output (`print`) is not modelled.
- Float arithmetic: `float()`, `round(.., 5)` and the carrier division are uninterpreted functions of `Numbers`. Only whether they raise is modelled.
- Bruker.Load: the values `self.xCAR`/`yCAR`/`zCAR` are not stored. Only the exceptions of the division are kept, and `genConversion` recomputes the rounded carrier through `Numbers`.
- The `acqDict` table is never used by the program, so it is not modelled.
- `self.nsamples`/`self.zN` written back by `genConversion` are not modelled as object state: nothing reads them afterwards.
- Scripts.GenConversion: the nuslist is looked up with the same path as `os.path.join`, not with the `self.dir + '/nuslist'` concatenation. The two name the same file.
- The program is read as Python 3: `FileNotFoundError`, the `TypeError` of `os.path.join` on `False`, and the whitespace set of `str.split()` (which includes `\x1c`-`\x1f`) are Python 3's. Python 2's `IOError`, its join behaviour and its byte-string `split()` are not modelled.
- Text.IsSpace: only the ASCII whitespace of `str.split()` is modelled, not Unicode spaces.
- Text.PadLeft: the `format` width option is modelled for strings only. Numbers are passed already formatted.
- Command-line parsing (argparse) is represented by the `Args` record. Argparse's own errors and help output are not modelled.
- A pickled configuration is taken as a well-formed `Config`. Unpickling errors and version mismatches are not modelled.
- Workflow.Samples: when `nuslist.used` is cut short by IndexError, the model assumes the lines written before the exception reach the file (the file object is flushed at interpreter exit).
- Scripts.ConversionLinesLayout: the macro line is identified by its position (line 13) rather than by searching for it.
- Workflow.Run: an exception is modelled by skipping the later stages and the save. This has the same observable outcome as the process aborting.
- Workflow.Ft23Step: `Run` uses the corrected final-transform stage. The as-written one is `Ft23AsWritten`, with the difference stated under Findings.

## Findings

| source | as written | input that shows it | evidently intended | confidence | as-written member | corrected member |
|---|---|---|---|---|---|---|
| masterHI.py:509 | the refusal of `--ft23` before a reconstruction calls `Print`, which is not defined, so it raises NameError and the options of the run are never saved | `masterHI.py --ft23` in a directory with no saved configuration | print the refusal and carry on to save the options, as the other stages' refusals do | not executed | Workflow.Ft23FirstRun | Workflow.Ft23RefusalLosesOptions |
