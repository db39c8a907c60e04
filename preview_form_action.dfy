/**
  The form preview action: the rewrite of the parsed form's bindings, the
  runtime bundle files copied next to the previewer, the set of resource
  bundles the form refers to, the compile gate and the VM parameters of the
  preview process. Host services (temporary directory, form parsing, code
  generation, the compiler, the process runner) are represented by the
  outcomes they report.
*/
module PreviewFormAction {
  import opened Wrappers
  import opened FormModel

  /** The previewer class, in the default package, that the form is bound to. */
  const CLASS_TO_BIND_NAME := "FormPreviewFrame"
  const RUNTIME_BUNDLE_PREFIX := "RuntimeBundle"
  const PROPERTIES_EXTENSION := ".properties"
  /** The only field binding left in a form prepared for preview. */
  const PREVIEW_BINDING_FIELD := "myComponent"

  // ---------------------------------------------------------------------
  // Binding rewrite

  /** The binding a node carries once the form below `top` is prepared for preview. */
  ghost function PreviewBinding(top: Component, o: Component): Option<string>
    reads top`children
  {
    if |top.children| == 1 && o == top.children[0] then Some(PREVIEW_BINDING_FIELD) else None
  }

  /** Every node below `top` carries its preview binding. */
  ghost predicate PreviewBound(top: Component)
    reads top`children, top`Repr, top.Repr`binding
  {
    forall o :: o in top.Repr ==> o.binding == PreviewBinding(top, o)
  }

  /** The nodes below `top` that carry a binding. */
  ghost function BoundNodes(top: Component): set<Component>
    reads top`Repr, top.Repr`binding
  {
    set o | o in top.Repr && o.binding.Some?
  }

  /** The visitor of the binding rewrite, applied to every node of the tree in pre-order. */
  method ClearBindings(n: Component)
    requires n.Valid()
    modifies n.Repr`binding
    ensures forall o :: o in n.Repr ==> o.binding == None
    decreases n.Repr, 1
  {
    n.binding := None;
    if n in Subtrees(n.children) {
      SubtreesMember(n.children, n);
    }
    ClearChildBindings(n);
    forall o | o in n.Repr && o != n ensures o.binding == None {
      SubtreeCover(n, o);
    }
  }

  /** The traversal of the binding rewrite over the children of `n`, in order. */
  method ClearChildBindings(n: Component)
    requires n.Valid()
    modifies Subtrees(n.children)`binding
    ensures forall k, o :: 0 <= k < |n.children| && o in n.children[k].Repr ==> o.binding == None
    decreases n.Repr, 0
  {
    var i := 0;
    while i < |n.children|
      invariant 0 <= i <= |n.children|
      invariant forall k, o :: 0 <= k < i && o in n.children[k].Repr ==> o.binding == None
    {
      SubtreesIncludes(n.children, i);
      label before:
      ClearBindings(n.children[i]);
      forall k, o | 0 <= k <= i && o in n.children[k].Repr ensures o.binding == None {
        if o !in n.children[i].Repr {
          assert o.binding == old@before(o.binding);
        }
      }
      i := i + 1;
    }
  }

  /**
    Prepares a parsed form for preview: the form is bound to `classToBindName`,
    no component keeps its binding, and a single top-level component is bound
    to the previewer's field.
  */
  method SetPreviewBindings(root: RootContainer, classToBindName: string)
    requires root.container.Valid()
    modifies root`classToBind, root.container.Repr`binding
    ensures root.classToBind == Some(classToBindName)
    ensures PreviewBound(root.container)
    ensures forall o :: o in root.container.Repr ==>
      o.children == old(o.children) && o.descriptors == old(o.descriptors) && o.Repr == old(o.Repr)
    ensures old(root.classToBind) == Some(classToBindName) && old(PreviewBound(root.container)) ==>
      forall o :: o in root.container.Repr ==> o.binding == old(o.binding)
  {
    root.classToBind := Some(classToBindName);
    ClearBindings(root.container);
    if |root.container.children| == 1 {
      root.container.children[0].binding := Some(PREVIEW_BINDING_FIELD);
    }
  }

  /** After the rewrite exactly one node is bound when the root has one child, and none otherwise. */
  lemma PreviewBindingUnique(top: Component)
    requires top.Valid() && PreviewBound(top)
    ensures BoundNodes(top) == if |top.children| == 1 then {top.children[0]} else {}
    ensures |BoundNodes(top)| == if |top.children| == 1 then 1 else 0
    ensures forall o :: o in BoundNodes(top) ==> o.binding == Some(PREVIEW_BINDING_FIELD)
  {
    if |top.children| == 1 {
      assert top.children[0] in top.Repr;
      assert BoundNodes(top) == {top.children[0]};
    } else {
      assert BoundNodes(top) == {};
    }
  }

  // ---------------------------------------------------------------------
  // Resource bundles referred to by the form

  /** The dotted bundle names of the descriptors that refer to a bundle. */
  function BundleNamesOf(ds: seq<StringDescriptor>): set<string>
  {
    set d | d in ds && d.bundleName.Some? :: DottedBundleName(d).value
  }

  /** The dotted bundle names referred to by the string descriptors of `nodes`. */
  ghost function BundleNamesIn(nodes: set<Component>): set<string>
    reads nodes`descriptors
  {
    set o, b | o in nodes && b in BundleNamesOf(o.descriptors) :: b
  }

  /** The bundles referred to below `n`, by the tree's own recursion: its descriptors, then its children in order. */
  ghost function TreeBundleNames(n: Component): set<string>
    requires n.Valid()
    reads n`Repr, n.Repr`Repr, n.Repr`children, n.Repr`descriptors
    decreases n.Repr, 1
  {
    BundleNamesOf(n.descriptors) + ForestBundleNames(n, |n.children|)
  }

  /** The bundles referred to below the first `i` children of `n`. */
  ghost function ForestBundleNames(n: Component, i: nat): set<string>
    requires n.Valid() && i <= |n.children|
    reads n`Repr, n.Repr`Repr, n.Repr`children, n.Repr`descriptors
    decreases n.Repr, 0, i
  {
    if i == 0 then {} else ForestBundleNames(n, i - 1) + TreeBundleNames(n.children[i - 1])
  }

  /** Collected bundle names are dotted: none contains `/`. */
  lemma BundleNamesDotted(nodes: set<Component>, b: string)
    requires b in BundleNamesIn(nodes)
    ensures '/' !in b
  {
    var o :| o in nodes && b in BundleNamesOf(o.descriptors);
    var d :| d in o.descriptors && d.bundleName.Some? && b == DottedBundleName(d).value;
  }

  /** The bundles referred to by two sets of nodes together. */
  lemma BundleNamesUnion(nodes: set<Component>, more: set<Component>)
    ensures BundleNamesIn(nodes + more) == BundleNamesIn(nodes) + BundleNamesIn(more)
  {
  }

  /** The recursion over the tree finds exactly the bundles of the descriptors of all its nodes. */
  lemma {:induction false} TreeBundleNamesExact(n: Component)
    requires n.Valid()
    ensures TreeBundleNames(n) == BundleNamesIn(n.Repr)
    decreases n.Repr, 1
  {
    ForestBundleNamesExact(n, |n.children|);
    assert n.children[..|n.children|] == n.children;
    BundleNamesUnion({n}, Subtrees(n.children));
    assert BundleNamesIn({n}) == BundleNamesOf(n.descriptors);
  }

  lemma {:induction false} ForestBundleNamesExact(n: Component, i: nat)
    requires n.Valid() && i <= |n.children|
    ensures ForestBundleNames(n, i) == BundleNamesIn(Subtrees(n.children[..i]))
    decreases n.Repr, 0, i
  {
    if i == 0 {
      assert BundleNamesIn({}) == {};
    } else {
      ForestBundleNamesExact(n, i - 1);
      TreeBundleNamesExact(n.children[i - 1]);
      assert n.children[..i][..i - 1] == n.children[..i - 1];
      BundleNamesUnion(Subtrees(n.children[..i - 1]), n.children[i - 1].Repr);
    }
  }

  /** The string-descriptor visitor applied to the descriptors of one component. */
  method VisitDescriptors(ds: seq<StringDescriptor>) returns (bundles: set<string>)
    ensures bundles == BundleNamesOf(ds)
  {
    bundles := {};
    var j := 0;
    while j < |ds|
      invariant 0 <= j <= |ds|
      invariant bundles == BundleNamesOf(ds[..j])
    {
      var d := ds[j];
      if d.bundleName.Some? {
        bundles := bundles + {DottedBundleName(d).value};
      }
      assert ds[..j + 1] == ds[..j] + [d];
      j := j + 1;
    }
    assert ds[..j] == ds;
  }

  /** The traversal of the string-descriptor visitor: a component's descriptors, then its children. */
  method VisitTree(n: Component) returns (bundles: set<string>)
    requires n.Valid()
    ensures bundles == TreeBundleNames(n)
    decreases n.Repr, 1
  {
    bundles := VisitDescriptors(n.descriptors);
    var below := VisitChildren(n);
    bundles := bundles + below;
  }

  /** The traversal of the children of `n`, in order. */
  method VisitChildren(n: Component) returns (bundles: set<string>)
    requires n.Valid()
    ensures bundles == ForestBundleNames(n, |n.children|)
    decreases n.Repr, 0
  {
    bundles := {};
    var i := 0;
    while i < |n.children|
      invariant 0 <= i <= |n.children|
      invariant bundles == ForestBundleNames(n, i)
    {
      var sub := VisitTree(n.children[i]);
      bundles := bundles + sub;
      i := i + 1;
    }
  }

  /**
    The bundle set of the preview: the dotted name of every bundle that a
    string descriptor anywhere in the tree refers to.
  */
  method CollectBundleNames(n: Component) returns (bundles: set<string>)
    requires n.Valid()
    ensures bundles == BundleNamesIn(n.Repr)
  {
    bundles := VisitTree(n);
    TreeBundleNamesExact(n);
  }

  // ---------------------------------------------------------------------
  // Runtime bundle files and the preview process

  /** A locale as its language code, country code and display name ("" when absent). */
  datatype Locale = Locale(language: string, country: string, displayName: string)

  /** The file name of the runtime bundle with the given locale suffix. */
  function RuntimeBundleFile(suffix: string): string
  {
    RUNTIME_BUNDLE_PREFIX + suffix + PROPERTIES_EXTENSION
  }

  /**
    The runtime bundle files copied next to the previewer for the default
    locale, in copy order: the most specific first and the default bundle last.
    The language file is copied twice when the language is known, and a file
    with an empty language suffix is copied when it is not.
  */
  function RuntimeBundleFiles(locale: Locale): (r: seq<string>)
    ensures |r| == 2 + (if locale.language != "" then 1 else 0)
                     + (if locale.language != "" && locale.country != "" then 1 else 0)
    ensures r[|r| - 1] == RUNTIME_BUNDLE_PREFIX + PROPERTIES_EXTENSION
    ensures r[|r| - 2] == RuntimeBundleFile("_" + locale.language)
    ensures locale.language != "" ==> r[|r| - 3] == r[|r| - 2]
    ensures locale.language != "" && locale.country != "" ==>
      r[0] == RuntimeBundleFile("_" + locale.language + "_" + locale.country)
    ensures forall i, j :: 0 <= i < j < |r| ==> |r[i]| >= |r[j]|
  {
    var language, country := locale.language, locale.country;
    (if country != "" && language != "" then [RuntimeBundleFile("_" + language + "_" + country)] else [])
    + (if language != "" then [RuntimeBundleFile("_" + language)] else [])
    + [RuntimeBundleFile("_" + language), RuntimeBundleFile("")]
  }

  const USER_LANGUAGE_PROPERTY := "user.language"

  /** The VM parameters of the preview process for the locale of the form's string descriptors. */
  function VmParameters(stringDescriptorLocale: Option<Locale>): (r: seq<string>)
    ensures |r| <= 1
    ensures r != [] <==> stringDescriptorLocale.Some? && stringDescriptorLocale.value.displayName != ""
  {
    match stringDescriptorLocale
    case Some(locale) =>
      if locale.displayName != "" then ["-D" + USER_LANGUAGE_PROPERTY + "=" + locale.language] else []
    case None => []
  }

  /** The value of the system property `name` taken from the first `-D` definition of it in `params`. */
  function SystemProperty(params: seq<string>, name: string): (r: Option<string>)
    ensures r.Some? ==> exists i :: 0 <= i < |params| && params[i] == "-D" + name + "=" + r.value
  {
    if params == [] then None
    else if "-D" + name + "=" <= params[0] then
      var value := params[0][|"-D" + name + "="|..];
      assert params[0] == "-D" + name + "=" + value;
      Some(value)
    else
      var r := SystemProperty(params[1..], name);
      assert forall i :: 0 <= i < |params[1..]| ==> params[1..][i] == params[i + 1];
      r
  }

  /** The preview process runs with the form's language exactly when its locale has a display name. */
  lemma VmParametersSetUserLanguage(stringDescriptorLocale: Option<Locale>)
    ensures SystemProperty(VmParameters(stringDescriptorLocale), USER_LANGUAGE_PROPERTY) ==
      if stringDescriptorLocale.Some? && stringDescriptorLocale.value.displayName != ""
      then Some(stringDescriptorLocale.value.language) else None
  {
    var params := VmParameters(stringDescriptorLocale);
    if params != [] {
      var flag := "-D" + USER_LANGUAGE_PROPERTY + "=";
      assert params[0] == flag + stringDescriptorLocale.value.language;
      assert flag <= params[0];
      assert params[0][|flag|..] == stringDescriptorLocale.value.language;
    }
  }

  /** Why a preview was refused; each is reported to the user in an error dialog. */
  datatype PreviewError =
    | CannotCreateTempDirectory
    | CannotReadForm
    | EmptyForm
    | CodeGenerationFailed
    | CannotConfigure
    | CannotExecute

  datatype PreviewOutcome =
    | Failed(error: PreviewError)
    /** The compile of the form's bundles was aborted or reported errors: nothing is launched. */
    | CompileNotClean
    | Launched(mainClass: string, vmParameters: seq<string>)

  /** Launching the preview process, given whether the module configures and the runner executes. */
  function RunPreviewProcess(configured: bool, executed: bool, stringDescriptorLocale: Option<Locale>): (r: PreviewOutcome)
    ensures r.Launched? <==> configured && executed
    ensures !configured ==> r == Failed(CannotConfigure)
    ensures configured && !executed ==> r == Failed(CannotExecute)
    ensures r.Launched? ==> r.mainClass == CLASS_TO_BIND_NAME
    ensures r.Launched? ==>
      SystemProperty(r.vmParameters, USER_LANGUAGE_PROPERTY) ==
        if stringDescriptorLocale.Some? && stringDescriptorLocale.value.displayName != ""
        then Some(stringDescriptorLocale.value.language) else None
  {
    if !configured then Failed(CannotConfigure)
    else if !executed then Failed(CannotExecute)
    else
      VmParametersSetUserLanguage(stringDescriptorLocale);
      Launched(CLASS_TO_BIND_NAME, VmParameters(stringDescriptorLocale))
  }

  /** The compile callback launches the preview only after a clean, complete compile. */
  predicate CompileClean(aborted: bool, errors: int)
  {
    !aborted && errors == 0
  }

  /** What the host reports to the preview bootstrap. */
  datatype Host = Host(
    tempDirectoryCreated: bool,
    formRead: bool,
    defaultLocale: Locale,
    previewerCopied: bool,
    codeGenerated: bool,
    compileAborted: bool,
    compileErrors: int,
    configured: bool,
    executed: bool)

  /** The form keeps its class binding and every node keeps its binding. */
  twostate predicate BindingsUnchanged(root: RootContainer)
    reads root, root.container, root.container.Repr
  {
    root.classToBind == old(root.classToBind) &&
    root.container.Repr == old(root.container.Repr) &&
    forall o :: o in old(root.container.Repr) ==> o.binding == old(o.binding)
  }

  /**
    The preview bootstrap: `root` is the parsed form (meaningful only when
    the host read it), `copied` the runtime bundle files copied next to the
    previewer, `compiled` the bundles handed to the compiler, if any.
  */
  method ShowPreviewFrame(root: RootContainer, stringDescriptorLocale: Option<Locale>, host: Host)
    returns (outcome: PreviewOutcome, copied: seq<string>, compiled: Option<set<string>>)
    requires root.container.Valid()
    modifies root`classToBind, root.container.Repr`binding
    ensures !host.tempDirectoryCreated ==>
      outcome == Failed(CannotCreateTempDirectory) && copied == [] && compiled == None && BindingsUnchanged(root)
    ensures host.tempDirectoryCreated && !host.formRead ==>
      outcome == Failed(CannotReadForm) && copied == [] && compiled == None && BindingsUnchanged(root)
    ensures host.tempDirectoryCreated && host.formRead && root.container.children == [] ==>
      outcome == Failed(EmptyForm) && copied == [] && compiled == None && BindingsUnchanged(root)
    ensures host.tempDirectoryCreated && host.formRead && root.container.children != [] ==>
      root.classToBind == Some(CLASS_TO_BIND_NAME) && PreviewBound(root.container)
    ensures host.tempDirectoryCreated && host.formRead && root.container.children != [] && !host.previewerCopied ==>
      outcome == Failed(CodeGenerationFailed) && copied == [] && compiled == None
    ensures host.tempDirectoryCreated && host.formRead && root.container.children != [] && host.previewerCopied ==>
      copied == RuntimeBundleFiles(host.defaultLocale)
    ensures (host.tempDirectoryCreated && host.formRead && root.container.children != [] && host.previewerCopied &&
             !host.codeGenerated) ==>
      outcome == Failed(CodeGenerationFailed) && compiled == None
    ensures (host.tempDirectoryCreated && host.formRead && root.container.children != [] && host.previewerCopied &&
             host.codeGenerated) ==>
      var bundles := BundleNamesIn(root.container.Repr);
      && compiled == (if bundles != {} then Some(bundles) else None)
      && outcome == (if bundles != {} && !CompileClean(host.compileAborted, host.compileErrors) then CompileNotClean
                     else RunPreviewProcess(host.configured, host.executed, stringDescriptorLocale))
  {
    copied, compiled := [], None;
    if !host.tempDirectoryCreated {
      return Failed(CannotCreateTempDirectory), copied, compiled;
    }
    if !host.formRead {
      return Failed(CannotReadForm), copied, compiled;
    }
    if |root.container.children| == 0 {
      return Failed(EmptyForm), copied, compiled;
    }
    SetPreviewBindings(root, CLASS_TO_BIND_NAME);
    if !host.previewerCopied {
      return Failed(CodeGenerationFailed), copied, compiled;
    }
    copied := RuntimeBundleFiles(host.defaultLocale);
    if !host.codeGenerated {
      return Failed(CodeGenerationFailed), copied, compiled;
    }
    var bundles := CollectBundleNames(root.container);
    if |bundles| > 0 {
      compiled := Some(bundles);
      if CompileClean(host.compileAborted, host.compileErrors) {
        outcome := RunPreviewProcess(host.configured, host.executed, stringDescriptorLocale);
      } else {
        outcome := CompileNotClean;
      }
    } else {
      outcome := RunPreviewProcess(host.configured, host.executed, stringDescriptorLocale);
    }
  }
}
