# Swing UI designer: preview, i18n fix and row/column actions

A Dafny model of the decision and data logic of three extensions of the GUI
form designer:

- **Form preview** (`PreviewFormAction`): the parsed form tree is rewritten in
  place so that the form is bound to the previewer class `FormPreviewFrame`,
  no component keeps its field binding, and a single top-level component is
  bound to the previewer's field `myComponent`. The preview copies the runtime
  bundle files of the default locale, collects the resource bundles the form's
  string descriptors refer to, compiles them first when there are any, and
  launches the previewer with `-Duser.language=<language>` when the form's
  locale has a display name.
- **I18n quick fix** (`I18nizeFormQuickFix.run`): after the dialog is available
  and confirmed and the form is editable, every offered properties file is
  prepared for writing (any refusal ends the fix), the property is created,
  the files are saved, and the string descriptor is replaced by a reference to
  the bundle of the first file, named `package/base` with every `.` turned
  into `/`.
- **Row/column actions** (`RowColumnAction`): the presentation (enabled flag,
  text, icon) follows the caption selection, and performing the action runs
  the subclass action, revalidates the container and refreshes the editor.

Files:

- `wrappers.dfy`: `Option`, standing for nullable references.
- `form_model.dfy`: the form tree. `Component` is a class (bindings are updated
  in place) with its child components and string descriptors; `Valid()` says the
  nodes below a component are exactly its ghost `Repr`, acyclic. The root
  container is the class `RootContainer`, holding the bound class name and its
  component part (Dafny classes here have no inheritance).
- `preview_form_action.dfy`, `i18nize_form_quick_fix.dfy`,
  `row_column_action.dfy`: one module per source file.

Host services are parameters: the `Host` record of the preview (temporary
directory, form parsing, code generation, the compiler's callback, module
configuration, process execution), the `Env` record of the fix (dialog
availability, the dialog's answers, editability, per-file write preparation),
and the editor and caption selection of the row/column action. Effects on the
host are returned as ordered traces (`Effect`, `ActionEffect`).

Behaviour worth knowing, as the code has it:

- With an empty default-locale language the preview copies
  `RuntimeBundle_.properties` before `RuntimeBundle.properties`; with a known
  language the language file is copied twice.
- The VM flag is gated on the locale's display name but carries its language,
  so a locale with a country and no language gets `-Duser.language=` with an
  empty value.
- `actionPerformed` of the row/column action does not check the selection's
  container; when it is missing the model ends the trace with
  `ContainerMissing` (the null dereference) after the subclass action. `update`
  disables the action in that case.

## Model

| member | source | states |
|---|---|---|
| FormModel.ReplaceChar | src/main/java/com/intellij/uiDesigner/i18n/I18nizeFormQuickFix.java:138 | character replacement keeps the length and replaces exactly the occurrences of the given character |
| FormModel.ReplaceCharAt | src/main/java/com/intellij/uiDesigner/i18n/I18nizeFormQuickFix.java:138 | each character of the result is `to` where the input had `from`, and the input's character elsewhere |
| FormModel.DottedBundleName | src/main/java/com/intellij/uiDesigner/impl/actions/PreviewFormAction.java:226-227 | a descriptor has a dotted bundle name exactly when it has a bundle name; the dotted name has the same length and no `/` |
| PreviewFormAction.ClearBindings | src/main/java/com/intellij/uiDesigner/impl/actions/PreviewFormAction.java:269-278 | the visitor reaches every node of the tree, including the root, and afterwards no node carries a binding; only binding fields change |
| PreviewFormAction.SetPreviewBindings | src/main/java/com/intellij/uiDesigner/impl/actions/PreviewFormAction.java:266-283 | the form is bound to the given class; every node has a null binding except the root's only child, bound to `myComponent`; children, descriptors and tree shape are unchanged; a second application changes no binding |
| PreviewFormAction.PreviewBindingUnique | src/main/java/com/intellij/uiDesigner/impl/actions/PreviewFormAction.java:279-282 | after the rewrite the bound nodes are exactly the root's child when it has one child (one bound node, bound to `myComponent`) and none otherwise |
| PreviewFormAction.CollectBundleNames | src/main/java/com/intellij/uiDesigner/impl/actions/PreviewFormAction.java:220-231 | the collected set is exactly the dotted bundle names of the descriptors, anywhere in the tree, that have a bundle name |
| PreviewFormAction.TreeBundleNamesExact | src/main/java/com/intellij/uiDesigner/impl/actions/PreviewFormAction.java:220-231 | visiting a component's descriptors and then its children in order finds exactly the bundles of the descriptors of every node of the tree |
| PreviewFormAction.BundleNamesDotted | src/main/java/com/intellij/uiDesigner/impl/actions/PreviewFormAction.java:226-227 | no collected bundle name contains `/` |
| PreviewFormAction.RuntimeBundleFiles | src/main/java/com/intellij/uiDesigner/impl/actions/PreviewFormAction.java:181-190 | the copied files are language_country (only when both are known), language (again, when the language is known), language (always, possibly empty), then the default bundle; names never grow along the sequence |
| PreviewFormAction.VmParameters | src/main/java/com/intellij/uiDesigner/impl/actions/PreviewFormAction.java:308-310 | at most one VM parameter, present exactly when the locale is non-null and has a non-empty display name |
| PreviewFormAction.VmParametersSetUserLanguage | src/main/java/com/intellij/uiDesigner/impl/actions/PreviewFormAction.java:308-310 | the preview JVM's `user.language` property is the locale's language exactly when the locale has a display name, and unset otherwise |
| PreviewFormAction.RunPreviewProcess | src/main/java/com/intellij/uiDesigner/impl/actions/PreviewFormAction.java:285-327 | the process is launched exactly when the module configures and the runner executes; it runs `FormPreviewFrame`, with `user.language` set as above; each failure is reported as its own error |
| PreviewFormAction.ShowPreviewFrame | src/main/java/com/intellij/uiDesigner/impl/actions/PreviewFormAction.java:121-264 | temp-directory, read and empty-form failures stop before any binding rewrite or copy; otherwise the bindings are rewritten; a failed previewer class copy stops before any runtime bundle is copied, and otherwise the runtime bundles are copied; after code generation the bundle set is compiled when non-empty and the preview runs only after a compile that was not aborted and had no errors, or directly when the set is empty |
| I18nizeFormQuickFix.BundleName | src/main/java/com/intellij/uiDesigner/i18n/I18nizeFormQuickFix.java:129-138 | the bundle name contains no `.`; its length is package + 1 + base when the package is non-empty and base otherwise |
| I18nizeFormQuickFix.BundleNameParts | src/main/java/com/intellij/uiDesigner/i18n/I18nizeFormQuickFix.java:129-138 | the bundle name is the slashed package, `/`, the slashed base name for a non-empty package, and the slashed base name alone otherwise |
| I18nizeFormQuickFix.ReplaceCharRoundTrip | src/main/java/com/intellij/uiDesigner/i18n/I18nizeFormQuickFix.java:138 | turning `.` into `/` and back restores any name that had no `/` |
| I18nizeFormQuickFix.BundleNameDottedRoundTrip | src/main/java/com/intellij/uiDesigner/i18n/I18nizeFormQuickFix.java:129-141 | the descriptor written by the fix, read back in dotted form as the preview collects it, names `package.base` (or `base`) of the chosen file |
| I18nizeFormQuickFix.FirstRefused | src/main/java/com/intellij/uiDesigner/i18n/I18nizeFormQuickFix.java:84-89 | the position of the first file the host refuses to prepare: every earlier file was prepared and that one was refused |
| I18nizeFormQuickFix.PrepareFiles | src/main/java/com/intellij/uiDesigner/i18n/I18nizeFormQuickFix.java:82-94 | files are prepared in iteration order up to and including the first refusal; the loop completes exactly when none is refused, and then the chosen file is the first one |
| I18nizeFormQuickFix.Run | src/main/java/com/intellij/uiDesigner/i18n/I18nizeFormQuickFix.java:53-150 | nothing happens when the dialog is unavailable or not OK or the form is not editable; files are prepared in order and the first refusal ends the fix with no write; otherwise the property is created, every file saved, and, when there is a first file with a package, the descriptor becomes (derived bundle name of the first file, dialog key) followed by refresh-and-save |
| RowColumnAction.RowColumnAction.constructor | src/main/java/com/intellij/uiDesigner/actions/RowColumnAction.java:41-47 | the action keeps the configured column and row texts and icons |
| RowColumnAction.RowColumnAction.Updated | src/main/java/com/intellij/uiDesigner/actions/RowColumnAction.java:72-94 | enabled exactly when there is a selection with a container and a focused index of at least 0; no selection keeps text and icon; a row selection shows the row text and the row icon, a column selection the column text and the column icon, and the old icon is kept when the matching configured icon is null; the icon is never cleared |
| RowColumnAction.RowColumnAction.UpdateIdempotent | src/main/java/com/intellij/uiDesigner/actions/RowColumnAction.java:68-96 | updating twice for the same selection shows what updating once shows |
| RowColumnAction.RowColumnAction.Update | src/main/java/com/intellij/uiDesigner/actions/RowColumnAction.java:68-96 | the presentation object ends in the state described by `Updated` from its previous state |
| RowColumnAction.RowColumnAction.ActionPerformed | src/main/java/com/intellij/uiDesigner/actions/RowColumnAction.java:51-62 | nothing happens without an editor, without a selection or when the form is not editable; otherwise the subclass action, then the container revalidation, then refresh-and-save |

## Left out

- Temporary directory creation, copying the forms runtime, the previewer classes and the properties files, and the asynchronous deletion of the directory when the process ends: file I/O through host services. The model keeps the success or failure of the temporary directory and of the previewer class copy (`Host.previewerCopied`; on failure no runtime bundle is copied), and the names of the runtime bundle files.
- ShowPreviewFrame: each runtime bundle file copy is taken to succeed; an exception thrown by one of them midway, which would leave only the earlier files copied and end the preview, is not modelled.
- Class path assembly, `OwnJavaParameters`, the run profile, the program runner and the child process: process plumbing; only the main class, the VM parameters and the two failure points are modelled.
- `AsmCodeGenerator` and `Utils.getRootContainer`: foreign modules; their success is a `Host` flag. A failed previewer class copy and a failed code generation are both reported as `CodeGenerationFailed`, as the source shows the same error dialog for both.
- The compiler's `make` call, its compile scope of files and modules, and the asynchronous `CompileStatusNotification`: the callback's result is a parameter and the model continues synchronously.
- Error dialogs and their messages, logging, `CommandProcessor` and write actions, PSI, document saving and exceptions thrown by `I18nUtil.createProperty` or `setStringDescriptorValue` (logged by the source, which then carries on): host side effects, recorded only as trace entries.
- The dialog itself (initial value escaping, dimension key) and `ensureEditable`'s own side effects: UI.
- `PreviewFormAction.update` and `PreviewFormAction.actionPerformed`: editor lookup and menu visibility through host queries.
- `LwComponent`, `LwRootContainer`, `FormEditingUtil.iterate` and `StringDescriptor` are not part of this model; the visitor is taken to visit every node in pre-order, root first, and `getDottedBundleName` to replace `/` by `.`.
- String descriptors of a component stand for all of its string-valued properties, its border title and its tab titles; the model does not distinguish them.
- `Locale`: modelled as its language, country and display name strings; how the display name is derived is not modelled.
- ChangeFormComponentTypeFix, UIFormEditorProvider, QuickFixManagerImpl and FormWordsScannerProvider: host API calls, registration, Swing listeners and a factory, with no logic of their own to state.
