# sphinx-qsp quickstart-plus: settings persistence and snippet injection

This project models the driver of `sphinx_qsp/quickstart_plus.py`, the wrapper around
`sphinx-quickstart` that remembers the answers of the last run and augments the generated
documentation project. One run:

1. loads `~/.sphinx_qsp/setting.json` (if present) into the global `hook_d`;
2. in the patched `ask_user`, asks "Use latest setting?" only when something was loaded and,
   on yes (the default), merges the loaded settings into the engine's record (`d.update`);
3. in the patched `generate`, captures a copy of the final record into `hook_d`;
4. after the engine returns, saves `hook_d` minus the per-project fields
   `project`, `author`, `path`, `version`, `release`, `extensions`, overwriting `setting.json`;
5. appends the `conf_py` snippets of the static extension catalog, in catalog order, to
   `conf.py` (under `source/` when `sep` is truthy), appends the `makefile` snippets to the
   Makefile when `makefile` is exactly `True`, and overwrites `auto_build.bat` with the
   rendered auto-build template when `batchfile` is exactly `True`.

Modules:

- `Wrappers` (`wrappers.dfy`): `Option`.
- `Settings` (`settings.dfy`): the record (`map<string, Value>`), `ExcludeValue`, Python
  truthiness, the save filter and the `update` merge, with their lemmas.
- `Extensions` (`extensions.dfy`): extension descriptors, the `qsp_extensions` catalog with its
  snippet texts, and the text an injection loop appends (`Selected`, `Concat`, `Appended`).
- `Targets` (`targets.dfy`): the resolved target paths, the `AUTO_BUILD_BATCH` template, and
  the effect of each post-generation step on a file system modelled as `map<string, string>`
  (`ConfInjected`, `MakefileInjected`, `AutoBuildWritten`, `Augmented`), with lemmas.
- `QuickstartPlus` (`quickstart_plus.dfy`): class `Session` with fields `hookD` (the global
  `hook_d`), `settingFile` (`setting.json`, `None` when absent) and `fs` (the project files);
  its methods are the steps of `main` and of the two hooks, each proved against the pure
  functions above, the injection loop with its loop invariant.

Python's `x and a or b` conditionals (`srcdir`, `source_dir`, `build_dir`) test truthiness
(`Truthy`), while the Makefile and batch steps test `is True`, modelled as equality with
`Bool(true)`: a truthy string or integer does not trigger them. `open(p, "a+")` creates a
missing file, so appending to an absent file starts from the empty text (`Content`).

`EXCLUDE_VALUE` contains `path`, so a saved record never holds it: saving
`{path, sep, makefile, batchfile, project}` keeps only `sep`, `makefile` and `batchfile`
(`QuickstartPlus.DemoSaved`).

## Model

| member | source | states |
|---|---|---|
| `Settings.SaveFilter` | sphinx_qsp/quickstart_plus.py:222 | the saved record holds no excluded key, keeps every other key of the captured record with its value, and adds no key |
| `Settings.SaveFilterIdempotent` | sphinx_qsp/quickstart_plus.py:222 | filtering an already filtered record changes nothing |
| `Settings.SaveFilterDeterminedByReusable` | sphinx_qsp/quickstart_plus.py:133 | two records save alike exactly when they agree on every non-excluded key |
| `Settings.Merge` | sphinx_qsp/quickstart_plus.py:201 | `d.update(hook_d)`: the keys are the union, saved keys take the saved value, other keys keep their value |
| `Settings.ReplayRestoresReusable` | sphinx_qsp/quickstart_plus.py:196-222 | replaying a saved record restores every reusable field of the earlier final record, and excluded fields keep the new session's values (present exactly when they were) |
| `Extensions.Selected` | sphinx_qsp/quickstart_plus.py:231-233 | at most one snippet is written per descriptor |
| `Extensions.SelectedEmptyIff` | sphinx_qsp/quickstart_plus.py:231-233 | nothing is written exactly when no descriptor has a snippet of that kind |
| `Extensions.PresentIndices` | sphinx_qsp/quickstart_plus.py:231-232 | the positions of descriptors with a snippet of the kind lie within the catalog |
| `Extensions.PresentIndicesSpec` | sphinx_qsp/quickstart_plus.py:231-232 | those positions are increasing, each holds a snippet of the kind, and every descriptor holding one is among them |
| `Extensions.SelectedAtPresentIndices` | sphinx_qsp/quickstart_plus.py:231-233 | the j-th written snippet is the snippet of the j-th descriptor that has one: catalog order, descriptors without a snippet skipped |
| `Extensions.Appended` | sphinx_qsp/quickstart_plus.py:231-233 | the text the loop writes; empty when no descriptor has a snippet of the kind (its composition is `AppendedSplit`, `AppendedStep` and `SelectedAtPresentIndices`) |
| `Extensions.SelectedAppend` | sphinx_qsp/quickstart_plus.py:231-233 | selection distributes over splitting the catalog |
| `Extensions.ConcatAppend` | sphinx_qsp/quickstart_plus.py:233 | consecutive writes concatenate |
| `Extensions.AppendedSplit` | sphinx_qsp/quickstart_plus.py:230-233 | the appended text for a split catalog is the text of the first part followed by that of the second |
| `Extensions.AppendedStep` | sphinx_qsp/quickstart_plus.py:231-233 | one loop turn adds exactly the current descriptor's snippet, or nothing when it has none |
| `Extensions.AbsentSnippetContributesNothing` | sphinx_qsp/quickstart_plus.py:232 | removing a descriptor without a snippet of the kind leaves the appended text unchanged |
| `Extensions.CatalogOfSnippets` | sphinx_qsp/quickstart_plus.py:123-131 | in the catalog layout six of seven descriptors give `conf_py` snippets in order, and only autobuild gives a `makefile` snippet |
| `Extensions.QspExtensionsSnippets` | sphinx_qsp/quickstart_plus.py:43-131 | the same for the shipped snippet texts |
| `Extensions.QspExtensionsMakefileText` | sphinx_qsp/quickstart_plus.py:87-93 | the text appended to the Makefile is the `livehtml` autobuild target alone |
| `Targets.Ready` | sphinx_qsp/quickstart_plus.py:228-245 | the record has the fields the driver reads (`sep`, a string `path`, `makefile`, `batchfile`), and whenever the batch step runs without `sep` it has a string `dot`, so the build directory is defined |
| `Targets.SrcDir` | sphinx_qsp/quickstart_plus.py:228 | the source directory lies under the project path and differs from it exactly when `sep` is truthy |
| `Targets.ConfPath` | sphinx_qsp/quickstart_plus.py:228-229 | `conf.py` is at `path/source/conf.py` when `sep` is truthy and at `path/conf.py` otherwise |
| `Targets.MakefilePath` | sphinx_qsp/quickstart_plus.py:236 | the Makefile is at `path/Makefile`, whatever `sep` is (distinct from the other targets: `TargetPathsDistinct`) |
| `Targets.BatchPath` | sphinx_qsp/quickstart_plus.py:243 | the batch script is at `path/auto_build.bat`, whatever `sep` is (distinct from the other targets: `TargetPathsDistinct`) |
| `Targets.BatchSourceDir` | sphinx_qsp/quickstart_plus.py:244 | the script's source directory is `source` exactly when `sep` is truthy, and `.` otherwise |
| `Targets.BatchBuildDir` | sphinx_qsp/quickstart_plus.py:245 | the build directory always ends in `build`: it is `build` when `sep` is truthy, and `dot` followed by `build` otherwise |
| `Targets.RenderBatch` | sphinx_qsp/quickstart_plus.py:139-154 | `AUTO_BUILD_BATCH.format(...)` (line 248): the stripped template head, the source directory and `set BUILDDIR=` come first, then the build directory and the template tail with the ignore pattern of line 136; the rendering determines the directories (`RenderResolvedInjective`) |
| `Targets.RenderResolvedInjective` | sphinx_qsp/quickstart_plus.py:244-248 | with `source_dir` resolved to `source` or `.`, the rendered script determines both directories, for any build directory string |
| `Targets.AppendToFile` | sphinx_qsp/quickstart_plus.py:230 | append mode: the old content (empty if the file was missing) is a prefix, followed by exactly the written text; other files unchanged |
| `Targets.WriteFile` | sphinx_qsp/quickstart_plus.py:247 | write mode: the file holds exactly the written text; other files unchanged |
| `Targets.ConfInjected` | sphinx_qsp/quickstart_plus.py:228-233 | the `conf.py` step: `conf.py` (created if missing) becomes its old content followed by the `conf_py` snippets, and no other file changes (repeats append again: `ConfInjectionRepeats`) |
| `Targets.MakefileInjected` | sphinx_qsp/quickstart_plus.py:235-240 | the Makefile step: when `makefile` is `True` the Makefile becomes its old content followed by the `makefile` snippets; otherwise nothing changes; no other file changes |
| `Targets.AutoBuildWritten` | sphinx_qsp/quickstart_plus.py:242-252 | the batch step: when `batchfile` is `True` the script holds exactly the rendered template, whatever it held; otherwise nothing changes; no other file changes (a second write keeps only the last: `AutoBuildRewriteKeepsLast`) |
| `Targets.Augmented` | sphinx_qsp/quickstart_plus.py:225-252 | the three steps in order: no file disappears and `conf.py` always exists afterwards (per-file contents: `AugmentedConfPy`, `AugmentedMakefile`, `AugmentedAutoBuild`, `AugmentedFrame`) |
| `Targets.TargetPathsDistinct` | sphinx_qsp/quickstart_plus.py:228-243 | `conf.py`, `Makefile` and `auto_build.bat` are three different paths for either value of `sep` |
| `Targets.AugmentedConfPy` | sphinx_qsp/quickstart_plus.py:228-233 | after the run `conf.py` (at `path/source` or `path`) is its old content followed by the `conf_py` snippets in catalog order |
| `Targets.AugmentedMakefile` | sphinx_qsp/quickstart_plus.py:235-240 | `path/Makefile` is extended by the `makefile` snippets exactly when `makefile` is `True`, otherwise left as it was |
| `Targets.AugmentedAutoBuild` | sphinx_qsp/quickstart_plus.py:242-252 | `path/auto_build.bat` is the rendered template, whatever it held, exactly when `batchfile` is `True`, otherwise left as it was |
| `Targets.AugmentedFrame` | sphinx_qsp/quickstart_plus.py:225-252 | no file other than the three targets changes, and a target appears only when its step runs |
| `Targets.ConfInjectionRepeats` | sphinx_qsp/quickstart_plus.py:230-233 | injecting twice writes the snippets twice (append-always, not idempotent) |
| `Targets.AutoBuildRewriteKeepsLast` | sphinx_qsp/quickstart_plus.py:242-252 | writing the batch script twice leaves only the second rendering; a different first resolution is gone, for any `dot` |
| `QuickstartPlus.Session.constructor` | sphinx_qsp/quickstart_plus.py:158 | a session starts with an empty `hook_d` |
| `QuickstartPlus.Session.LoadLatest` | sphinx_qsp/quickstart_plus.py:186-191 | an existing `setting.json` is merged into `hook_d`; a missing one leaves it |
| `QuickstartPlus.Session.AskUseLatest` | sphinx_qsp/quickstart_plus.py:161-174 | the question is asked exactly when `hook_d` is non-empty; the answer is yes unless the user explicitly says no, and false without asking |
| `QuickstartPlus.Session.PreSeed` | sphinx_qsp/quickstart_plus.py:196-203 | on accepted replay every loaded key takes its loaded value and other keys keep theirs; otherwise the record passes unchanged |
| `QuickstartPlus.Session.CaptureGenerated` | sphinx_qsp/quickstart_plus.py:210-215 | `hook_d` becomes the final record |
| `QuickstartPlus.Session.SaveLatest` | sphinx_qsp/quickstart_plus.py:221-223 | `setting.json` is overwritten with the filtered `hook_d` |
| `QuickstartPlus.Session.AppendSnippets` | sphinx_qsp/quickstart_plus.py:230-233 | the loop leaves the file as its old content followed by the catalog's snippets of the kind |
| `QuickstartPlus.Session.InjectConfPy` | sphinx_qsp/quickstart_plus.py:228-233 | the file system after the `conf.py` loop is `ConfInjected` of the old one |
| `QuickstartPlus.Session.InjectMakefile` | sphinx_qsp/quickstart_plus.py:235-240 | the file system after the Makefile step is `MakefileInjected` of the old one |
| `QuickstartPlus.Session.WriteAutoBuild` | sphinx_qsp/quickstart_plus.py:242-252 | the file system after the batch step is `AutoBuildWritten` of the old one |
| `QuickstartPlus.Session.Finish` | sphinx_qsp/quickstart_plus.py:221-252 | the post-engine part of `main`: filtered record saved, project files `Augmented` |
| `QuickstartPlus.Session.Run` | sphinx_qsp/quickstart_plus.py:178-252 | a whole run: load, optional replay merge, engine prompts, capture, save of the filtered final record, augmentation with `qsp_extensions`; the engine need only produce a usable record from the seeded one |
| `QuickstartPlus.ReplaySeed` | sphinx_qsp/quickstart_plus.py:161-203 | the record the engine's own prompts start from: it keeps every key of the initial record; a "no" reply, or nothing saved and nothing loaded, leaves it unchanged; on replay every key of the loaded `setting.json` takes its loaded value; keys neither loaded nor held keep their initial value |
| `QuickstartPlus.SaveLoadRoundTrip` | sphinx_qsp/quickstart_plus.py:186-223 | saving a final record and loading it in a fresh session gives back exactly the filtered record, whatever `setting.json` held before |
| `QuickstartPlus.DemoSaved` | sphinx_qsp/quickstart_plus.py:222 | a worked record saves without `project` and `path` |
| `QuickstartPlus.DemoPaths` | sphinx_qsp/quickstart_plus.py:228-243 | for that record `conf.py` is `/tmp/docs/source/conf.py`, the Makefile is `/tmp/docs/Makefile`, and only the Makefile flag is `True` |
| `QuickstartPlus.DemoTargets` | sphinx_qsp/quickstart_plus.py:235-247 | for that record the Makefile gains the autobuild target and no batch file is written |

## Left out

- The Sphinx engine itself: its own prompts (`original_ask_user`) and file generation (`original_generate`) are the function parameters `askRest` and `scaffold` of `Session.Run`; the monkey-patching of `quickstart.ask_user` and `quickstart.generate` is the order of the calls in `Run`.
- `QuickstartPlus.Session.Run`: the engine's files (`scaffold`) are modelled as replacing files that already exist (`old(fs) + scaffold(...)`). The hook receives `templatedir` as a keyword but passes it on positionally (`original_generate(d, templatedir)`, line 215), so the engine may instead read it as a different parameter and skip existing files; Sphinx's `generate` is not part of this model.
- An engine run that returns without calling `generate` (then `hook_d` still holds the loaded settings): `Session.Run` assumes the engine always produces a final record carrying the fields the driver reads (`Ready`).
- Terminal I/O: the welcome text, `bold` and `do_prompt`; the yes/no reply is a parameter, `None` for an empty reply that takes the default.
- JSON parsing, serialisation and the `indent=4` layout: `setting.json` holds the record itself; a corrupt file is not modelled.
- The Python 2 `str(key)` re-keying: keys are already strings, so it is the identity.
- `os.path.expanduser`, the creation of `~/.sphinx_qsp` and the real `os.path.join` rules (trailing separators, empty or absolute components): joining is concatenation with `/`.
- Directories and write failures: every target file can be written; the project files are a flat map from path to content.
- Text-mode newline translation: `conf.py`, the Makefile and `auto_build.bat` are opened in text mode, so on Windows every written newline becomes a carriage return and newline; the file contents hold the untranslated text.
- The `package` lists of the descriptors, which the driver never reads.
- The commented-out earlier driver at the end of the file.
- Python `KeyError`/`TypeError` for records missing `sep`, `path`, `makefile`, `batchfile` (or `dot` when it is read), or with a non-string `path`: these are the precondition `Ready`.
