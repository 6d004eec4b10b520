/**
 * Where the post-generation step writes and what it writes there: the resolved
 * `conf.py`, Makefile and `auto_build.bat` paths, the auto-build batch template, and
 * the effect of each injection step on a file system modelled as a map from path to
 * content.
 */
module Targets {
  import opened Settings
  import opened Extensions

  /** The fields the driver reads after generation, with the types it uses them at.
      `dot` is read only to build the batch script's build directory, and only when
      `sep` is falsy. */
  predicate Ready(d: Settings)
    ensures Ready(d) ==>
              && "sep" in d && "batchfile" in d
              && (d["batchfile"] == Bool(true) ==> Truthy(d["sep"]) || ("dot" in d && d["dot"].Str?))
  {
    && "sep" in d && "path" in d && d["path"].Str? && "makefile" in d && "batchfile" in d
    && (d["batchfile"] == Bool(true) && !Truthy(d["sep"]) ==> "dot" in d && d["dot"].Str?)
  }

  /** `os.path.join`, modelled as concatenation with a separator. */
  function Join(dir: string, name: string): string {
    dir + "/" + name
  }

  function ProjectPath(d: Settings): string
    requires Ready(d)
  {
    d["path"].s
  }

  /** `srcdir`: the `source` sub-directory when `sep` is truthy, the project path otherwise. */
  function SrcDir(d: Settings): (r: string)
    requires Ready(d)
    ensures ProjectPath(d) <= r
    ensures r == ProjectPath(d) <==> !Truthy(d["sep"])
  {
    if Truthy(d["sep"]) then Join(ProjectPath(d), "source") else ProjectPath(d)
  }

  /** `conf.py` lies under the project directory, inside `source` exactly when `sep` is truthy. */
  function ConfPath(d: Settings): (r: string)
    requires Ready(d)
    ensures r == ProjectPath(d) + (if Truthy(d["sep"]) then "/source/conf.py" else "/conf.py")
  {
    Join(SrcDir(d), "conf.py")
  }

  /** The Makefile lies directly in the project directory, whatever `sep` is. */
  function MakefilePath(d: Settings): (r: string)
    requires Ready(d)
    ensures r == ProjectPath(d) + "/Makefile"
  {
    Join(ProjectPath(d), "Makefile")
  }

  /** The batch script lies directly in the project directory, whatever `sep` is. */
  function BatchPath(d: Settings): (r: string)
    requires Ready(d)
    ensures r == ProjectPath(d) + "/auto_build.bat"
  {
    Join(ProjectPath(d), "auto_build.bat")
  }

  /** `source_dir` of the batch script. */
  function BatchSourceDir(d: Settings): (r: string)
    requires Ready(d)
    ensures r == "source" || r == "."
    ensures r == "source" <==> Truthy(d["sep"])
  {
    if Truthy(d["sep"]) then "source" else "."
  }

  /** `build_dir` of the batch script; `dot` is consulted only without a separate source dir. */
  function BatchBuildDir(d: Settings): (r: string)
    requires Ready(d) && (Truthy(d["sep"]) || ("dot" in d && d["dot"].Str?))
    ensures |r| >= 5 && r[|r| - 5..] == "build"
    ensures Truthy(d["sep"]) ==> r == "build"
    ensures !Truthy(d["sep"]) ==> d["dot"].s <= r && |r| == |d["dot"].s| + 5
  {
    if Truthy(d["sep"]) then "build" else d["dot"].s + "build"
  }

  /** `INTELLIJ_IDEA_IGNORE_RE`. */
  const IntellijIdeaIgnoreRe: string := "___jb_(.*?)___$"

  /** The part of `AUTO_BUILD_BATCH` (after `strip()`) before `{source_dir}`. */
  const BatchHead: string :=
    "@ECHO OFF\n\npushd %~dp0\n\nREM Command file for Sphinx auto build\n\nset SOURCEDIR="
  /** Between `{source_dir}` and `{build_dir}`. */
  const BatchMiddle: string := "\nset BUILDDIR="
  /** After `{build_dir}`, with the ignore pattern substituted. */
  const BatchTail: string :=
    "\n\nsphinx-autobuild -b html -r " + IntellijIdeaIgnoreRe
    + " %SOURCEDIR% %BUILDDIR%/html\ngoto end\n\n:end\npopd"

  /** `AUTO_BUILD_BATCH.format(...)`. */
  function RenderBatch(sourceDir: string, buildDir: string): (r: string)
    ensures BatchHead + sourceDir + BatchMiddle <= r
    ensures r[|BatchHead + sourceDir + BatchMiddle|..] == buildDir + BatchTail
  {
    BatchHead + sourceDir + BatchMiddle + buildDir + BatchTail
  }

  /** The content of a file, or the empty text when it does not exist (`open(p, "a+")`
      creates a missing file). */
  function Content(fs: map<string, string>, p: string): string {
    if p in fs then fs[p] else ""
  }

  /** Opening `p` in append mode and writing `text`. */
  function AppendToFile(fs: map<string, string>, p: string, text: string): (r: map<string, string>)
    ensures r.Keys == fs.Keys + {p}
    ensures Content(fs, p) <= r[p] && r[p][|Content(fs, p)|..] == text
    ensures forall q :: q in fs && q != p ==> r[q] == fs[q]
  {
    fs[p := Content(fs, p) + text]
  }

  /** Opening `p` in write mode and writing `text`: whatever was there is gone. */
  function WriteFile(fs: map<string, string>, p: string, text: string): (r: map<string, string>)
    ensures r.Keys == fs.Keys + {p}
    ensures r[p] == text
    ensures forall q :: q in fs && q != p ==> r[q] == fs[q]
  {
    fs[p := text]
  }

  /** The `conf.py` step: the catalog's `conf_py` snippets are appended to `conf.py`. */
  function ConfInjected(fs: map<string, string>, d: Settings, catalog: seq<Descriptor>): (r: map<string, string>)
    requires Ready(d)
    ensures r.Keys == fs.Keys + {ConfPath(d)}
    ensures r[ConfPath(d)] == Content(fs, ConfPath(d)) + Appended(catalog, ConfPy)
    ensures forall q :: q in fs && q != ConfPath(d) ==> r[q] == fs[q]
  {
    AppendToFile(fs, ConfPath(d), Appended(catalog, ConfPy))
  }

  /** The Makefile step, taken only when `makefile` is exactly `True`. */
  function MakefileInjected(fs: map<string, string>, d: Settings, catalog: seq<Descriptor>): (r: map<string, string>)
    requires Ready(d)
    ensures d["makefile"] == Bool(true) ==>
              r.Keys == fs.Keys + {MakefilePath(d)}
              && r[MakefilePath(d)] == Content(fs, MakefilePath(d)) + Appended(catalog, Makefile)
    ensures d["makefile"] != Bool(true) ==> r == fs
    ensures forall q :: q in fs && q != MakefilePath(d) ==> r[q] == fs[q]
  {
    if d["makefile"] == Bool(true) then AppendToFile(fs, MakefilePath(d), Appended(catalog, Makefile)) else fs
  }

  /** The batch step, taken only when `batchfile` is exactly `True`. */
  function AutoBuildWritten(fs: map<string, string>, d: Settings): (r: map<string, string>)
    requires Ready(d)
    ensures d["batchfile"] == Bool(true) ==>
              r.Keys == fs.Keys + {BatchPath(d)}
              && r[BatchPath(d)] == RenderBatch(BatchSourceDir(d), BatchBuildDir(d))
    ensures d["batchfile"] != Bool(true) ==> r == fs
    ensures forall q :: q in fs && q != BatchPath(d) ==> r[q] == fs[q]
  {
    if d["batchfile"] == Bool(true) then WriteFile(fs, BatchPath(d), RenderBatch(BatchSourceDir(d), BatchBuildDir(d))) else fs
  }

  /** The whole post-generation augmentation, in the driver's order. */
  function Augmented(fs: map<string, string>, d: Settings, catalog: seq<Descriptor>): (r: map<string, string>)
    requires Ready(d)
    ensures fs.Keys + {ConfPath(d)} <= r.Keys
  {
    AutoBuildWritten(MakefileInjected(ConfInjected(fs, d, catalog), d, catalog), d)
  }

  /** The three target files are distinct, whatever the flags. */
  lemma TargetPathsDistinct(d: Settings)
    requires Ready(d)
    ensures ConfPath(d) != MakefilePath(d)
    ensures ConfPath(d) != BatchPath(d)
    ensures MakefilePath(d) != BatchPath(d)
  {
    // The three names end in different characters: `conf.py`, `Makefile`, `auto_build.bat`.
    var c, m, b := ConfPath(d), MakefilePath(d), BatchPath(d);
    assert c == SrcDir(d) + "/" + "conf.py";
    assert m == ProjectPath(d) + "/" + "Makefile";
    assert b == ProjectPath(d) + "/" + "auto_build.bat";
    assert c[|c| - 1] == 'y';
    assert m[|m| - 1] == 'e';
    assert b[|b| - 1] == 't';
  }

  /** After augmentation `conf.py` is its previous content followed by the catalog's
      `conf_py` snippets in order. */
  lemma AugmentedConfPy(fs: map<string, string>, d: Settings, catalog: seq<Descriptor>)
    requires Ready(d)
    ensures ConfPath(d) in Augmented(fs, d, catalog)
    ensures Augmented(fs, d, catalog)[ConfPath(d)] == Content(fs, ConfPath(d)) + Concat(Selected(catalog, ConfPy))
  {
    TargetPathsDistinct(d);
  }

  /** The Makefile gains the catalog's `makefile` snippets when `makefile` is exactly
      `True`, and is left exactly as it was (present or absent) otherwise. */
  lemma AugmentedMakefile(fs: map<string, string>, d: Settings, catalog: seq<Descriptor>)
    requires Ready(d)
    ensures d["makefile"] == Bool(true) ==>
              MakefilePath(d) in Augmented(fs, d, catalog) &&
              Augmented(fs, d, catalog)[MakefilePath(d)] == Content(fs, MakefilePath(d)) + Concat(Selected(catalog, Makefile))
    ensures d["makefile"] != Bool(true) ==>
              (MakefilePath(d) in Augmented(fs, d, catalog) <==> MakefilePath(d) in fs) &&
              Content(Augmented(fs, d, catalog), MakefilePath(d)) == Content(fs, MakefilePath(d))
  {
  }

  /** `auto_build.bat` is the rendered template when `batchfile` is exactly `True`,
      whatever it held before; otherwise it is left as it was. */
  lemma AugmentedAutoBuild(fs: map<string, string>, d: Settings, catalog: seq<Descriptor>)
    requires Ready(d)
    ensures d["batchfile"] == Bool(true) ==>
              BatchPath(d) in Augmented(fs, d, catalog) &&
              Augmented(fs, d, catalog)[BatchPath(d)] == RenderBatch(BatchSourceDir(d), BatchBuildDir(d))
    ensures d["batchfile"] != Bool(true) ==>
              (BatchPath(d) in Augmented(fs, d, catalog) <==> BatchPath(d) in fs) &&
              Content(Augmented(fs, d, catalog), BatchPath(d)) == Content(fs, BatchPath(d))
  {
    TargetPathsDistinct(d);
  }

  /** No file other than the three targets is touched, and only targets whose step ran
      can come into existence. */
  lemma AugmentedFrame(fs: map<string, string>, d: Settings, catalog: seq<Descriptor>)
    requires Ready(d)
    ensures Augmented(fs, d, catalog).Keys == fs.Keys + {ConfPath(d)}
              + (if d["makefile"] == Bool(true) then {MakefilePath(d)} else {})
              + (if d["batchfile"] == Bool(true) then {BatchPath(d)} else {})
    ensures forall q :: q in fs && q != ConfPath(d) && q != MakefilePath(d) && q != BatchPath(d) ==>
              Augmented(fs, d, catalog)[q] == fs[q]
  {
  }

  /** Injection is append-always: running it on an already augmented `conf.py` writes the
      snippets a second time. */
  lemma ConfInjectionRepeats(fs: map<string, string>, d: Settings, catalog: seq<Descriptor>)
    requires Ready(d)
    ensures ConfInjected(ConfInjected(fs, d, catalog), d, catalog)[ConfPath(d)]
         == Content(fs, ConfPath(d)) + Appended(catalog, ConfPy) + Appended(catalog, ConfPy)
  {
  }

  /** With the source directory resolved to `source` or `.`, the rendered script
      determines both directories, whatever string the build directory is: the first
      character after the head tells the source directories apart, and the shared head
      and tail cancel around the build directory. */
  lemma RenderResolvedInjective(s1: string, b1: string, s2: string, b2: string)
    requires s1 == "source" || s1 == "."
    requires s2 == "source" || s2 == "."
    requires RenderBatch(s1, b1) == RenderBatch(s2, b2)
    ensures s1 == s2 && b1 == b2
  {
    var r1, r2 := RenderBatch(s1, b1), RenderBatch(s2, b2);
    var h := |BatchHead|;
    assert r1[h] == s1[0] && r2[h] == s2[0];
    assert s1 == s2;
    var pre := BatchHead + s1 + BatchMiddle;
    assert r1 == pre + b1 + BatchTail && r2 == pre + b2 + BatchTail;
    assert |b1| == |b2|;
    assert b1 == r1[|pre|..|pre| + |b1|];
    assert b2 == r2[|pre|..|pre| + |b2|];
  }

  /** Writing the batch script twice leaves only the second rendering, and when the two
      resolutions differ the first one's directories are no longer in the file. */
  lemma AutoBuildRewriteKeepsLast(fs: map<string, string>, d1: Settings, d2: Settings)
    requires Ready(d1) && Ready(d2) && ProjectPath(d1) == ProjectPath(d2)
    requires d1["batchfile"] == Bool(true) && d2["batchfile"] == Bool(true)
    ensures AutoBuildWritten(AutoBuildWritten(fs, d1), d2)[BatchPath(d2)] == RenderBatch(BatchSourceDir(d2), BatchBuildDir(d2))
    ensures (BatchSourceDir(d1), BatchBuildDir(d1)) != (BatchSourceDir(d2), BatchBuildDir(d2)) ==>
              AutoBuildWritten(AutoBuildWritten(fs, d1), d2)[BatchPath(d2)] != RenderBatch(BatchSourceDir(d1), BatchBuildDir(d1))
  {
    if RenderBatch(BatchSourceDir(d2), BatchBuildDir(d2)) == RenderBatch(BatchSourceDir(d1), BatchBuildDir(d1)) {
      RenderResolvedInjective(BatchSourceDir(d1), BatchBuildDir(d1), BatchSourceDir(d2), BatchBuildDir(d2));
    }
  }

}
