/**
  The in-memory form tree that the preview and the i18n fix work on:
  components (LwComponent) with a field binding, the string descriptors of
  their properties and their child components, and the root container
  (LwRootContainer) that additionally names the class the form is bound to.
*/
module FormModel {
  import opened Wrappers

  /** A string property value: literal text, or a (bundle, key) reference into a resource bundle. */
  datatype StringDescriptor = StringDescriptor(value: Option<string>, bundleName: Option<string>, key: Option<string>)

  /** `s` with every occurrence of `from` replaced by `to` (Java's String.replace(char, char)). */
  function ReplaceChar(s: string, from: char, to: char): (r: string)
    ensures |r| == |s|
    ensures from != to ==> from !in r
  {
    if s == [] then [] else [if s[0] == from then to else s[0]] + ReplaceChar(s[1..], from, to)
  }

  /** Each character is replaced when it is `from` and kept otherwise. */
  lemma {:induction false} ReplaceCharAt(s: string, from: char, to: char, i: nat)
    requires i < |s|
    ensures ReplaceChar(s, from, to)[i] == if s[i] == from then to else s[i]
  {
    if i > 0 {
      ReplaceCharAt(s[1..], from, to, i - 1);
    }
  }

  /** The bundle name of a descriptor in dotted form (slash-separated names become dot-separated). */
  function DottedBundleName(d: StringDescriptor): (r: Option<string>)
    ensures r.Some? <==> d.bundleName.Some?
    ensures r.Some? ==> |r.value| == |d.bundleName.value| && '/' !in r.value
  {
    match d.bundleName
    case None => None
    case Some(b) => Some(ReplaceChar(b, '/', '.'))
  }

  /** A node of the form tree. */
  class Component {
    var binding: Option<string>
    var descriptors: seq<StringDescriptor>
    var children: seq<Component>
    /** This node and every node below it. */
    ghost var Repr: set<Component>

    /** The structure below this node is finite and acyclic, and its nodes are exactly Repr (subtrees may be shared). */
    ghost predicate Valid()
      reads this`Repr, Repr`Repr, Repr`children
      decreases Repr
    {
      this in Repr &&
      (forall c :: c in children ==> c in Repr) &&
      Repr == {this} + Subtrees(children) &&
      forall c :: c in children ==> c.Repr <= Repr && this !in c.Repr && c.Valid()
    }
  }

  /** The nodes of all subtrees rooted at `cs`. */
  ghost function Subtrees(cs: seq<Component>): set<Component>
    reads cs`Repr
    decreases |cs|
  {
    if cs == [] then {} else Subtrees(cs[..|cs| - 1]) + cs[|cs| - 1].Repr
  }

  /** A node of the subtrees rooted at `cs` lies in the subtree of one of them. */
  lemma {:induction false} SubtreesMember(cs: seq<Component>, o: Component)
    requires o in Subtrees(cs)
    ensures exists k :: 0 <= k < |cs| && o in cs[k].Repr
  {
    var last := |cs| - 1;
    if o !in cs[last].Repr {
      SubtreesMember(cs[..last], o);
      var k :| 0 <= k < last && o in cs[..last][k].Repr;
      assert o in cs[k].Repr;
    }
  }

  /** The subtrees rooted at `cs` include each one of them. */
  lemma {:induction false} SubtreesIncludes(cs: seq<Component>, i: nat)
    requires i < |cs|
    ensures cs[i].Repr <= Subtrees(cs)
  {
    if i < |cs| - 1 {
      SubtreesIncludes(cs[..|cs| - 1], i);
    }
  }

  /** Every node of a valid subtree other than its root lies in the subtree of one of its children. */
  lemma SubtreeCover(n: Component, o: Component)
    requires n.Valid() && o in n.Repr && o != n
    ensures exists k :: 0 <= k < |n.children| && o in n.children[k].Repr
  {
    SubtreesMember(n.children, o);
  }

  /** The root of a form: its component part and the class the form is bound to. */
  class RootContainer {
    var classToBind: Option<string>
    const container: Component

    constructor (classToBind: Option<string>, container: Component)
      ensures this.classToBind == classToBind && this.container == container
    {
      this.classToBind := classToBind;
      this.container := container;
    }
  }
}
