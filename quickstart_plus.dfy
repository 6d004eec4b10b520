/**
 * The quickstart-plus driver: one session holds the global `hook_d`, the persisted
 * `setting.json` and the project files, and its methods are the steps of `main` and of
 * the two hooks it installs around the quickstart engine.
 */
module QuickstartPlus {
  import opened Wrappers
  import opened Settings
  import opened Extensions
  import opened Targets

  class Session {
    /** The module-global `hook_d`: first the loaded settings, later the captured final record. */
    var hookD: Settings
    /** `~/.sphinx_qsp/setting.json`; `None` when the file does not exist. */
    var settingFile: Option<Settings>
    /** The project files, by path. */
    var fs: map<string, string>

    constructor (settingFile: Option<Settings>, fs: map<string, string>)
      ensures this.hookD == map[] && this.settingFile == settingFile && this.fs == fs
    {
      this.hookD := map[];
      this.settingFile := settingFile;
      this.fs := fs;
    }

    /** Loading the latest settings: when `setting.json` exists its record is merged into `hook_d`. */
    method LoadLatest()
      modifies this`hookD
      ensures hookD == if settingFile.Some? then Merge(old(hookD), settingFile.value) else old(hookD)
    {
      if settingFile.Some? {
        hookD := Merge(hookD, settingFile.value);
      }
    }

    /** `qsp_ask_user`: the "Use latest setting?" question is put only when there are
        settings to replay; an empty reply means the default, yes. */
    method AskUseLatest(reply: Option<bool>) returns (prompted: bool, useLatest: bool)
      ensures prompted <==> hookD != map[]
      ensures useLatest <==> hookD != map[] && reply != Some(false)
    {
      if hookD != map[] {
        prompted := true;
        useLatest := reply.GetOr(true);
      } else {
        prompted, useLatest := false, false;
      }
    }

    /** The patched `ask_user` up to the engine's own prompts: when replay is accepted the
        loaded settings override the record (`Merge`: every loaded key takes its loaded
        value, every other key keeps its own), otherwise the record passes unchanged. */
    method PreSeed(d: Settings, reply: Option<bool>) returns (prompted: bool, seeded: Settings)
      ensures prompted <==> hookD != map[]
      ensures prompted && reply != Some(false) ==> seeded == Merge(d, hookD)
      ensures !prompted || reply == Some(false) ==> seeded == d
    {
      var useLatest;
      prompted, useLatest := AskUseLatest(reply);
      if useLatest {
        seeded := Merge(d, hookD);
      } else {
        seeded := d;
      }
    }

    /** The patched `generate`: a copy of the final record becomes `hook_d`. */
    method CaptureGenerated(d: Settings)
      modifies this`hookD
      ensures hookD == d
    {
      hookD := d;
    }

    /** Saving the latest settings: `setting.json` is overwritten with the filtered record. */
    method SaveLatest()
      modifies this`settingFile
      ensures settingFile == Some(SaveFilter(hookD))
    {
      settingFile := Some(SaveFilter(hookD));
    }

    /** One `for ext in qsp_extensions` loop: the snippets of the given kind are written,
        one by one, to the file `p` opened in append mode. */
    method AppendSnippets(p: string, catalog: seq<Descriptor>, kind: SnippetKind)
      modifies this`fs
      ensures fs == AppendToFile(old(fs), p, Appended(catalog, kind))
    {
      var before := Content(fs, p);
      fs := fs[p := before];
      assert Appended(catalog[..0], kind) == "" by { assert catalog[..0] == []; }
      for i := 0 to |catalog|
        invariant p in fs && fs == old(fs)[p := fs[p]]
        invariant fs[p] == before + Appended(catalog[..i], kind)
      {
        AppendedStep(catalog, i, kind);
        match catalog[i].Snippet(kind) {
          case Some(s) =>
            fs := fs[p := fs[p] + s];
          case None =>
        }
      }
      assert catalog[..|catalog|] == catalog;
    }

    method InjectConfPy(catalog: seq<Descriptor>)
      requires Ready(hookD)
      modifies this`fs
      ensures fs == ConfInjected(old(fs), hookD, catalog)
    {
      AppendSnippets(ConfPath(hookD), catalog, ConfPy);
    }

    method InjectMakefile(catalog: seq<Descriptor>)
      requires Ready(hookD)
      modifies this`fs
      ensures fs == MakefileInjected(old(fs), hookD, catalog)
    {
      if hookD["makefile"] == Bool(true) {
        AppendSnippets(MakefilePath(hookD), catalog, Makefile);
      }
    }

    method WriteAutoBuild()
      requires Ready(hookD)
      modifies this`fs
      ensures fs == AutoBuildWritten(old(fs), hookD)
    {
      if hookD["batchfile"] == Bool(true) {
        fs := fs[BatchPath(hookD) := RenderBatch(BatchSourceDir(hookD), BatchBuildDir(hookD))];
      }
    }

    /** The part of `main` after the engine returns: save the filtered record, then
        augment the generated project. */
    method Finish(catalog: seq<Descriptor>)
      requires Ready(hookD)
      modifies this`settingFile, this`fs
      ensures settingFile == Some(SaveFilter(hookD))
      ensures fs == Augmented(old(fs), hookD, catalog)
    {
      SaveLatest();
      InjectConfPy(catalog);
      InjectMakefile(catalog);
      WriteAutoBuild();
    }

    /** A whole run of `main`. The engine is given as two functions: `askRest`, its own
        prompts turning the pre-seeded record into the final one, and `scaffold`, the
        files its `generate` writes for that record. */
    method Run(initial: Settings, reply: Option<bool>,
               askRest: Settings -> Settings, scaffold: Settings -> map<string, string>)
      requires Ready(askRest(ReplaySeed(hookD, settingFile, initial, reply)))
      modifies this
      ensures hookD == askRest(ReplaySeed(old(hookD), old(settingFile), initial, reply))
      ensures settingFile == Some(SaveFilter(hookD))
      ensures fs == Augmented(old(fs) + scaffold(hookD), hookD, QspExtensions)
    {
      ghost var fs0 := fs;
      LoadLatest();
      var prompted, d := PreSeed(initial, reply);
      d := askRest(d);
      CaptureGenerated(d);
      fs := fs + scaffold(d);
      Finish(QspExtensions);
      assert fs == Augmented(fs0 + scaffold(hookD), hookD, QspExtensions);
    }
  }

  /** The record the engine's prompts start from in a run whose `hook_d` and
      `setting.json` are `hook` and `file`: the loaded settings are merged in when there
      are some and the user does not decline. */
  function ReplaySeed(hook: Settings, file: Option<Settings>, initial: Settings, reply: Option<bool>): (r: Settings)
    ensures initial.Keys <= r.Keys
    ensures reply == Some(false) ==> r == initial
    ensures hook == map[] && file.None? ==> r == initial
    ensures reply != Some(false) && file.Some? ==> forall k :: k in file.value ==> k in r && r[k] == file.value[k]
    ensures forall k :: k in initial && k !in hook && (file.None? || k !in file.value) ==> r[k] == initial[k]
  {
    var loaded := if file.Some? then Merge(hook, file.value) else hook;
    if loaded != map[] && reply != Some(false) then Merge(initial, loaded) else initial
  }

  /** Saving a final record and loading it in the next session gives back the filtered
      record, whatever `setting.json` held before: saving overwrites rather than merges. */
  method SaveLoadRoundTrip(previous: Option<Settings>, fs: map<string, string>, final: Settings)
    returns (loaded: Settings)
    ensures loaded == SaveFilter(final)
  {
    var first := new Session(previous, fs);
    first.CaptureGenerated(final);
    first.SaveLatest();
    var next := new Session(first.settingFile, first.fs);
    next.LoadLatest();
    loaded := next.hookD;
  }

  /** The record of a worked run: a separate source directory, a Makefile, no batch file. */
  function DemoRecord(): Settings {
    map["path" := Str("/tmp/docs"), "sep" := Bool(true), "makefile" := Bool(true),
        "batchfile" := Bool(false), "project" := Str("Demo")]
  }

  /** In the worked run neither `project` nor `path` is saved (both are per-project). */
  lemma DemoSaved()
    ensures SaveFilter(DemoRecord()) == map["sep" := Bool(true), "makefile" := Bool(true), "batchfile" := Bool(false)]
  {
  }

  /** In the worked run `conf.py` is found under `source/`, the Makefile is at the
      project root, and the batch step does not run. */
  lemma DemoPaths()
    ensures Ready(DemoRecord())
    ensures ConfPath(DemoRecord()) == "/tmp/docs/source/conf.py"
    ensures MakefilePath(DemoRecord()) == "/tmp/docs/Makefile"
    ensures BatchPath(DemoRecord()) == "/tmp/docs/auto_build.bat"
    ensures DemoRecord()["makefile"] == Bool(true) && DemoRecord()["batchfile"] != Bool(true)
  {
    var d := DemoRecord();
    assert Truthy(d["sep"]) && ProjectPath(d) == "/tmp/docs";
  }

  /** In the worked run the Makefile gains the autobuild target and no batch script
      appears. */
  lemma DemoTargets(fs: map<string, string>)
    requires "/tmp/docs/auto_build.bat" !in fs
    ensures "/tmp/docs/Makefile" in Augmented(fs, DemoRecord(), QspExtensions)
    ensures Augmented(fs, DemoRecord(), QspExtensions)["/tmp/docs/Makefile"]
         == Content(fs, "/tmp/docs/Makefile") + AutoBuildMakefile
    ensures "/tmp/docs/auto_build.bat" !in Augmented(fs, DemoRecord(), QspExtensions)
  {
    DemoPaths();
    QspExtensionsMakefileText();
    AugmentedMakefile(fs, DemoRecord(), QspExtensions);
    AugmentedAutoBuild(fs, DemoRecord(), QspExtensions);
  }
}
