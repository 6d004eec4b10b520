/**
 * The static catalog of optional extensions (`qsp_extensions`) and the text that the
 * injection loops append for it: for each kind of target file, the snippets of the
 * descriptors that have one, in catalog order, concatenated.
 */
module Extensions {
  import opened Wrappers

  /** The two kinds of file a descriptor can carry a snippet for. */
  datatype SnippetKind = ConfPy | Makefile

  /** One extension: an optional `conf_py` snippet and an optional `makefile` snippet
      (the informational `package` list is not modelled). */
  datatype Descriptor = Descriptor(confPy: Option<string>, makefile: Option<string>) {
    function Snippet(kind: SnippetKind): Option<string> {
      match kind
      case ConfPy => confPy
      case Makefile => makefile
    }
  }

  const FontAwesomeConf: string :=
    "\nimport sphinx_fontawesome\nextensions.append('sphinx_fontawesome')\n"
  const CommonMarkConf: string :=
    "\nsource_suffix = [source_suffix, '.md']\n\nfrom recommonmark.parser import CommonMarkParser\n"
    + "source_parsers = {\n    '.md': CommonMarkParser,\n}\n"
  const AutoStructifyConf: string :=
    "\nfrom recommonmark.transform import AutoStructify\n\n"
    + "github_doc_root = 'https://github.com/rtfd/recommonmark/tree/master/doc/'\n"
    + "def setup(app):\n    app.add_config_value('recommonmark_config', {\n"
    + "            'url_resolver': lambda url: github_doc_root + url,\n"
    + "            'auto_toc_tree_section': 'Contents',\n            }, True)\n"
    + "    app.add_transform(AutoStructify)\n"
  const RtdThemeConf: string :=
    "\nimport sphinx_rtd_theme\nhtml_theme = \"sphinx_rtd_theme\"\n"
    + "html_theme_path = [sphinx_rtd_theme.get_html_theme_path()]\n"
  const AutoBuildMakefile: string :=
    "\nlivehtml:\n\tsphinx-autobuild -b html -r .*\\.md.+ $(ALLSPHINXOPTS) $(BUILDDIR)/html\n"
  const NbSphinxConf: string :=
    "\nextensions.append('nbsphinx')\nexclude_patterns.append('**.ipynb_checkpoints')\n"
  const BlockDiagConf: string :=
    "\nextensions.extend([\n    'sphinxcontrib.blockdiag',\n    'sphinxcontrib.seqdiag',\n"
    + "    'sphinxcontrib.actdiag',\n    'sphinxcontrib.nwdiag',\n    'sphinxcontrib.rackdiag',\n"
    + "    'sphinxcontrib.packetdiag',\n])\nblockdiag_html_image_format = 'SVG'\n"
    + "seqdiag_html_image_format = 'SVG'\nactdiag_html_image_format = 'SVG'\n"
    + "nwdiag_html_image_format = 'SVG'\nrackiag_html_image_format = 'SVG'\n"
    + "packetdiag_html_image_format = 'SVG'\n"

  /** The layout of `qsp_extensions`, with the snippet texts as parameters:
      font awesome, commonmark, autostructify, rtd theme, autobuild, nbsphinx, blockdiag. */
  function CatalogOf(fa: string, cm: string, ast: string, rtd: string, ab: string, nb: string, bd: string): seq<Descriptor> {
    [
      Descriptor(Some(fa), None),
      Descriptor(Some(cm), None),
      Descriptor(Some(ast), None),
      Descriptor(Some(rtd), None),
      Descriptor(None, Some(ab)),
      Descriptor(Some(nb), None),
      Descriptor(Some(bd), None)
    ]
  }

  /** `qsp_extensions`, in its significant order. */
  const QspExtensions: seq<Descriptor> :=
    CatalogOf(FontAwesomeConf, CommonMarkConf, AutoStructifyConf, RtdThemeConf, AutoBuildMakefile, NbSphinxConf, BlockDiagConf)

  /** What one descriptor contributes to a file of the given kind. */
  function Contribution(e: Descriptor, kind: SnippetKind): string {
    e.Snippet(kind).GetOr("")
  }

  /** The snippets of the given kind, in catalog order, skipping descriptors without one. */
  function Selected(catalog: seq<Descriptor>, kind: SnippetKind): (r: seq<string>)
    ensures |r| <= |catalog|
  {
    if catalog == [] then []
    else
      var rest := Selected(catalog[1..], kind);
      match catalog[0].Snippet(kind)
      case Some(s) => [s] + rest
      case None => rest
  }

  /** Nothing is written exactly when no descriptor has a snippet of the kind. */
  lemma {:induction false} SelectedEmptyIff(catalog: seq<Descriptor>, kind: SnippetKind)
    ensures Selected(catalog, kind) == [] <==> forall i :: 0 <= i < |catalog| ==> catalog[i].Snippet(kind) == None
  {
    if catalog != [] {
      SelectedEmptyIff(catalog[1..], kind);
      forall i | 1 <= i < |catalog| ensures catalog[i] == catalog[1..][i - 1] { }
    }
  }

  /** The positions, in increasing order, of the descriptors that have a snippet of the
      given kind: an index-based description of the selection, built from the back. */
  function PresentIndices(catalog: seq<Descriptor>, kind: SnippetKind): (idx: seq<nat>)
    ensures forall j :: 0 <= j < |idx| ==> idx[j] < |catalog|
  {
    if catalog == [] then []
    else
      var n := |catalog| - 1;
      PresentIndices(catalog[..n], kind) + (if catalog[n].Snippet(kind).Some? then [n] else [])
  }

  /** The present positions are increasing, each holds a snippet of the kind, and every
      descriptor holding one is among them. */
  lemma {:induction false} PresentIndicesSpec(catalog: seq<Descriptor>, kind: SnippetKind)
    ensures forall j :: 0 <= j < |PresentIndices(catalog, kind)| ==>
              catalog[PresentIndices(catalog, kind)[j]].Snippet(kind).Some?
    ensures forall j, j' :: 0 <= j < j' < |PresentIndices(catalog, kind)| ==>
              PresentIndices(catalog, kind)[j] < PresentIndices(catalog, kind)[j']
    ensures forall i :: 0 <= i < |catalog| && catalog[i].Snippet(kind).Some? ==> i in PresentIndices(catalog, kind)
  {
    if catalog != [] {
      var n := |catalog| - 1;
      var front := catalog[..n];
      PresentIndicesSpec(front, kind);
      assert forall i :: 0 <= i < n ==> catalog[i] == front[i];
    }
  }

  /** The strings concatenated in order, as consecutive `write` calls leave them. */
  function Concat(ss: seq<string>): string {
    if ss == [] then "" else ss[0] + Concat(ss[1..])
  }

  /** The text the injection loop appends to a file of the given kind. */
  function Appended(catalog: seq<Descriptor>, kind: SnippetKind): (r: string)
    ensures (forall i :: 0 <= i < |catalog| ==> catalog[i].Snippet(kind) == None) ==> r == ""
  {
    SelectedEmptyIff(catalog, kind);
    Concat(Selected(catalog, kind))
  }

  lemma {:induction false} SelectedAppend(a: seq<Descriptor>, b: seq<Descriptor>, kind: SnippetKind)
    ensures Selected(a + b, kind) == Selected(a, kind) + Selected(b, kind)
  {
    if a == [] {
      assert a + b == b;
    } else {
      assert (a + b)[1..] == a[1..] + b;
      SelectedAppend(a[1..], b, kind);
    }
  }

  lemma {:induction false} ConcatAppend(x: seq<string>, y: seq<string>)
    ensures Concat(x + y) == Concat(x) + Concat(y)
  {
    if x == [] {
      assert x + y == y;
    } else {
      assert (x + y)[1..] == x[1..] + y;
      ConcatAppend(x[1..], y);
    }
  }

  /** Appending is compositional: the text for a catalog split in two is the text for
      the first part followed by the text for the second. */
  lemma AppendedSplit(a: seq<Descriptor>, b: seq<Descriptor>, kind: SnippetKind)
    ensures Appended(a + b, kind) == Appended(a, kind) + Appended(b, kind)
  {
    SelectedAppend(a, b, kind);
    ConcatAppend(Selected(a, kind), Selected(b, kind));
  }

  /** One more turn of the loop body: the text for the first i+1 descriptors is the text
      for the first i followed by the contribution of descriptor i. */
  lemma AppendedStep(catalog: seq<Descriptor>, i: nat, kind: SnippetKind)
    requires i < |catalog|
    ensures Appended(catalog[..i + 1], kind) == Appended(catalog[..i], kind) + Contribution(catalog[i], kind)
  {
    assert catalog[..i + 1] == catalog[..i] + [catalog[i]];
    AppendedSplit(catalog[..i], [catalog[i]], kind);
    assert [catalog[i]][1..] == [];
    assert Concat(Selected([catalog[i]], kind)) == Contribution(catalog[i], kind) by {
      match catalog[i].Snippet(kind)
      case Some(s) =>
        assert Selected([catalog[i]], kind) == [s];
        assert [s][1..] == [];
      case None =>
    }
  }

  /** The selection is exactly the snippets at the present positions, in order: the
      j-th selected snippet is the snippet of the j-th descriptor that has one. */
  lemma {:induction false} SelectedAtPresentIndices(catalog: seq<Descriptor>, kind: SnippetKind)
    ensures |Selected(catalog, kind)| == |PresentIndices(catalog, kind)|
    ensures forall j :: 0 <= j < |PresentIndices(catalog, kind)| ==>
              catalog[PresentIndices(catalog, kind)[j]].Snippet(kind) == Some(Selected(catalog, kind)[j])
  {
    if catalog != [] {
      var n := |catalog| - 1;
      var front := catalog[..n];
      SelectedSnoc(catalog, kind);
      SelectedAtPresentIndices(front, kind);
      var idx := PresentIndices(front, kind);
      forall j | 0 <= j < |PresentIndices(catalog, kind)|
        ensures catalog[PresentIndices(catalog, kind)[j]].Snippet(kind) == Some(Selected(catalog, kind)[j])
      {
        if j < |idx| {
          assert catalog[idx[j]] == front[idx[j]];
        }
      }
    }
  }

  /** Selection of a catalog seen from its last descriptor. */
  lemma SelectedSnoc(catalog: seq<Descriptor>, kind: SnippetKind)
    requires catalog != []
    ensures var n := |catalog| - 1;
            Selected(catalog, kind) == Selected(catalog[..n], kind) +
              (if catalog[n].Snippet(kind).Some? then [catalog[n].Snippet(kind).value] else [])
  {
    var n := |catalog| - 1;
    assert catalog == catalog[..n] + [catalog[n]];
    SelectedAppend(catalog[..n], [catalog[n]], kind);
    SelectedFirst([catalog[n]], kind);
    assert [catalog[n]][1..] == [];
  }

  /** A descriptor without a snippet of the given kind contributes nothing: removing it
      from the catalog leaves the appended text unchanged. */
  lemma AbsentSnippetContributesNothing(catalog: seq<Descriptor>, i: nat, kind: SnippetKind)
    requires i < |catalog| && catalog[i].Snippet(kind) == None
    ensures Appended(catalog[..i] + catalog[i + 1..], kind) == Appended(catalog, kind)
  {
    assert catalog == catalog[..i] + ([catalog[i]] + catalog[i + 1..]);
    AppendedSplit(catalog[..i], [catalog[i]] + catalog[i + 1..], kind);
    AppendedSplit([catalog[i]], catalog[i + 1..], kind);
    AppendedSplit(catalog[..i], catalog[i + 1..], kind);
    assert [catalog[i]][1..] == [];
  }

  /** Unfolds `Selected` once. */
  lemma SelectedFirst(catalog: seq<Descriptor>, kind: SnippetKind)
    requires catalog != []
    ensures Selected(catalog, kind) == (if catalog[0].Snippet(kind).Some? then [catalog[0].Snippet(kind).value] else []) + Selected(catalog[1..], kind)
  {
  }

  /** The catalog layout: six of the seven descriptors contribute to `conf.py`, in
      catalog order, and only the autobuild descriptor contributes to the Makefile. */
  lemma CatalogOfSnippets(fa: string, cm: string, ast: string, rtd: string, ab: string, nb: string, bd: string)
    ensures |CatalogOf(fa, cm, ast, rtd, ab, nb, bd)| == 7
    ensures Selected(CatalogOf(fa, cm, ast, rtd, ab, nb, bd), ConfPy) == [fa, cm, ast, rtd, nb, bd]
    ensures Selected(CatalogOf(fa, cm, ast, rtd, ab, nb, bd), Makefile) == [ab]
  {
    var c := CatalogOf(fa, cm, ast, rtd, ab, nb, bd);
    assert c[7..] == [];
    assert c[6..][0] == c[6] && c[6..][1..] == c[7..];
    SelectedFirst(c[6..], ConfPy);
    SelectedFirst(c[6..], Makefile);
    assert c[5..][0] == c[5] && c[5..][1..] == c[6..];
    SelectedFirst(c[5..], ConfPy);
    SelectedFirst(c[5..], Makefile);
    assert c[4..][0] == c[4] && c[4..][1..] == c[5..];
    SelectedFirst(c[4..], ConfPy);
    SelectedFirst(c[4..], Makefile);
    assert c[3..][0] == c[3] && c[3..][1..] == c[4..];
    SelectedFirst(c[3..], ConfPy);
    SelectedFirst(c[3..], Makefile);
    assert c[2..][0] == c[2] && c[2..][1..] == c[3..];
    SelectedFirst(c[2..], ConfPy);
    SelectedFirst(c[2..], Makefile);
    assert c[1..][0] == c[1] && c[1..][1..] == c[2..];
    SelectedFirst(c[1..], ConfPy);
    SelectedFirst(c[1..], Makefile);
    assert c[0..][0] == c[0] && c[0..][1..] == c[1..];
    SelectedFirst(c[0..], ConfPy);
    SelectedFirst(c[0..], Makefile);
    assert c[0..] == c;
  }

  /** The shipped catalog contributes six `conf.py` snippets and one Makefile snippet. */
  lemma QspExtensionsSnippets()
    ensures |QspExtensions| == 7
    ensures Selected(QspExtensions, ConfPy)
         == [FontAwesomeConf, CommonMarkConf, AutoStructifyConf, RtdThemeConf, NbSphinxConf, BlockDiagConf]
    ensures Selected(QspExtensions, Makefile) == [AutoBuildMakefile]
  {
    CatalogOfSnippets(FontAwesomeConf, CommonMarkConf, AutoStructifyConf, RtdThemeConf, AutoBuildMakefile, NbSphinxConf, BlockDiagConf);
  }

  /** The text appended to the Makefile is the autobuild target alone. */
  lemma QspExtensionsMakefileText()
    ensures Appended(QspExtensions, Makefile) == AutoBuildMakefile
  {
    QspExtensionsSnippets();
    assert [AutoBuildMakefile][1..] == [];
    assert Concat([AutoBuildMakefile]) == AutoBuildMakefile + Concat([]);
  }
}
