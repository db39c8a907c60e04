/**
  The quick fix that moves a literal string of a form into a resource bundle:
  after the user confirms the i18n dialog, the property is created in the
  chosen properties files and the component's string descriptor is replaced by
  a reference to the bundle of the first of them.
*/
module I18nizeFormQuickFix {
  import opened Wrappers
  import opened FormModel

  /**
    A properties file offered by the dialog: the package of its directory
    (None when the directory is outside every source root), the base name of
    its resource bundle, and whether the host lets it be prepared for writing.
  */
  datatype PropertiesFile = PropertiesFile(path: string, packageName: Option<string>, baseName: string, writable: bool)

  /** What the i18n dialog reports once closed. */
  datatype Dialog = Dialog(ok: bool, key: string, value: string, propertiesFiles: seq<PropertiesFile>)

  /** The host state the fix consults, in the order it consults it. */
  datatype Env = Env(dialogAvailable: bool, dialog: Dialog, editable: bool)

  /** The observable effects of the fix, in the order they happen. */
  datatype Effect =
    | PrepareForWrite(file: PropertiesFile)
    | CreateProperty(files: seq<PropertiesFile>, key: string, value: string)
    | SaveDocument(file: PropertiesFile)
    | SetDescriptor(descriptor: StringDescriptor)
    | RefreshAndSave

  /** The effects that change a file, the form or the descriptor. */
  predicate IsWrite(e: Effect)
  {
    !e.PrepareForWrite?
  }

  /** The slash-separated bundle name of a bundle with `baseName` in package `packageName`. */
  function BundleName(packageName: string, baseName: string): (r: string)
    ensures '.' !in r
    ensures |r| == if packageName != "" then |packageName| + 1 + |baseName| else |baseName|
  {
    var dotted := if |packageName| > 0 then packageName + "." + baseName else baseName;
    ReplaceChar(dotted, '.', '/')
  }

  /** Replacing characters commutes with concatenation. */
  lemma {:induction false} ReplaceCharConcat(a: string, b: string, from: char, to: char)
    ensures ReplaceChar(a + b, from, to) == ReplaceChar(a, from, to) + ReplaceChar(b, from, to)
  {
    if a != [] {
      var head := [if a[0] == from then to else a[0]];
      assert (a + b)[0] == a[0] && (a + b)[1..] == a[1..] + b;
      ReplaceCharConcat(a[1..], b, from, to);
      calc {
        ReplaceChar(a + b, from, to);
        head + ReplaceChar(a[1..] + b, from, to);
        head + (ReplaceChar(a[1..], from, to) + ReplaceChar(b, from, to));
        (head + ReplaceChar(a[1..], from, to)) + ReplaceChar(b, from, to);
        ReplaceChar(a, from, to) + ReplaceChar(b, from, to);
      }
    } else {
      assert a + b == b;
    }
  }

  /** The package part and the base name part of the bundle name are converted separately. */
  lemma BundleNameParts(packageName: string, baseName: string)
    ensures packageName != "" ==>
      BundleName(packageName, baseName) ==
        ReplaceChar(packageName, '.', '/') + "/" + ReplaceChar(baseName, '.', '/')
    ensures packageName == "" ==> BundleName(packageName, baseName) == ReplaceChar(baseName, '.', '/')
  {
    if packageName != "" {
      ReplaceCharConcat(packageName + ".", baseName, '.', '/');
      ReplaceCharConcat(packageName, ".", '.', '/');
      assert ReplaceChar(".", '.', '/') == "/";
    }
  }

  /** Replacing `from` by `to` and back restores a string that did not contain `to`. */
  lemma {:induction false} ReplaceCharRoundTrip(s: string, from: char, to: char)
    requires to !in s
    ensures ReplaceChar(ReplaceChar(s, from, to), to, from) == s
  {
    if s != [] {
      ReplaceCharRoundTrip(s[1..], from, to);
    }
  }

  /**
    The descriptor written by the fix refers, in the dotted form the preview
    collects, to exactly the bundle of the chosen properties file.
  */
  lemma BundleNameDottedRoundTrip(packageName: string, baseName: string, key: string)
    requires '/' !in packageName && '/' !in baseName
    ensures DottedBundleName(StringDescriptor(None, Some(BundleName(packageName, baseName)), Some(key))) ==
      Some(if packageName != "" then packageName + "." + baseName else baseName)
  {
    var dotted := if |packageName| > 0 then packageName + "." + baseName else baseName;
    assert '/' !in dotted;
    ReplaceCharRoundTrip(dotted, '.', '/');
  }

  /** The preparation of every file, in iteration order. */
  function PrepareAll(files: seq<PropertiesFile>): (r: seq<Effect>)
    ensures |r| == |files|
    ensures forall k :: 0 <= k < |files| ==> r[k] == PrepareForWrite(files[k])
  {
    seq(|files|, k requires 0 <= k < |files| => PrepareForWrite(files[k]))
  }

  /** The save of every file, in iteration order. */
  function SaveAll(files: seq<PropertiesFile>): (r: seq<Effect>)
    ensures |r| == |files|
    ensures forall k :: 0 <= k < |files| ==> r[k] == SaveDocument(files[k])
  {
    seq(|files|, k requires 0 <= k < |files| => SaveDocument(files[k]))
  }

  /** The descriptor the fix writes for the bundle of `file` and the dialog's key. */
  function NewDescriptor(file: PropertiesFile, key: string): StringDescriptor
    requires file.packageName.Some?
  {
    StringDescriptor(None, Some(BundleName(file.packageName.value, file.baseName)), Some(key))
  }

  /** The position of the first file the host refuses to prepare for writing, or the number of files. */
  function FirstRefused(files: seq<PropertiesFile>): (k: nat)
    ensures k <= |files|
    ensures forall j :: 0 <= j < k ==> files[j].writable
    ensures k < |files| ==> !files[k].writable
  {
    if files == [] || !files[0].writable then 0 else 1 + FirstRefused(files[1..])
  }

  /**
    The loop of the fix over the offered files: each is prepared for writing
    in turn until one is refused; `chosen` is the first file.
  */
  method PrepareFiles(files: seq<PropertiesFile>) returns (effects: seq<Effect>, prepared: bool, chosen: Option<PropertiesFile>)
    ensures prepared <==> FirstRefused(files) == |files|
    ensures effects == if prepared then PrepareAll(files) else PrepareAll(files[..FirstRefused(files) + 1])
    ensures prepared ==> chosen == if files != [] then Some(files[0]) else None
  {
    effects, chosen := [], None;
    var i := 0;
    while i < |files|
      invariant 0 <= i <= |files|
      invariant forall k :: 0 <= k < i ==> files[k].writable
      invariant chosen == if i > 0 then Some(files[0]) else None
      invariant effects == PrepareAll(files[..i])
    {
      effects := effects + [PrepareForWrite(files[i])];
      if !files[i].writable {
        assert FirstRefused(files) == i;
        return effects, false, chosen;
      }
      if chosen.None? {
        chosen := Some(files[i]);
      }
      i := i + 1;
    }
    assert files[..i] == files;
    prepared := true;
  }

  /** The fix proceeds past the dialog and the editability check. */
  predicate Confirmed(env: Env)
  {
    env.dialogAvailable && env.dialog.ok && env.editable
  }

  /** Runs the fix and reports its effects. */
  method Run(env: Env) returns (effects: seq<Effect>)
    ensures !Confirmed(env) ==> effects == []
    ensures Confirmed(env) && FirstRefused(env.dialog.propertiesFiles) < |env.dialog.propertiesFiles| ==>
      effects == PrepareAll(env.dialog.propertiesFiles[..FirstRefused(env.dialog.propertiesFiles) + 1])
    ensures Confirmed(env) && FirstRefused(env.dialog.propertiesFiles) == |env.dialog.propertiesFiles| ==>
      var files := env.dialog.propertiesFiles;
      effects == PrepareAll(files) + [CreateProperty(files, env.dialog.key, env.dialog.value)] + SaveAll(files)
        + (if files != [] && files[0].packageName.Some?
           then [SetDescriptor(NewDescriptor(files[0], env.dialog.key)), RefreshAndSave]
           else [])
    ensures FirstRefused(env.dialog.propertiesFiles) < |env.dialog.propertiesFiles| ==>
      forall e :: e in effects ==> !IsWrite(e)
  {
    effects := [];
    if !env.dialogAvailable || !env.dialog.ok || !env.editable {
      return;
    }
    var files := env.dialog.propertiesFiles;
    var prepared, chosen;
    effects, prepared, chosen := PrepareFiles(files);
    if !prepared {
      return;
    }
    effects := effects + [CreateProperty(files, env.dialog.key, env.dialog.value)];
    ghost var created := effects;
    var j := 0;
    while j < |files|
      invariant 0 <= j <= |files|
      invariant effects == created + SaveAll(files[..j])
    {
      effects := effects + [SaveDocument(files[j])];
      j := j + 1;
    }
    assert files[..j] == files;
    if chosen.Some? && chosen.value.packageName.Some? {
      var bundleName := BundleName(chosen.value.packageName.value, chosen.value.baseName);
      effects := effects + [SetDescriptor(StringDescriptor(None, Some(bundleName), Some(env.dialog.key))), RefreshAndSave];
    }
  }
}
