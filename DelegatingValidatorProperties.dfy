/**
 * What the mappings built by `buildFormPathMapping`, `buildDataPathMapping` and
 * `buildNamePathMapping` contain: the two paths of each leaf, the placeholders of the
 * error mappings, the prefix every key of a sub-form's writes carries, and the name
 * paths of every descendant.
 */
module FormValidationProperties {
  import opened OrderedMaps
  import opened FormValidation

  /**
   * Every entry of `ws` is keyed below `prefix`, and every entry that targets a form
   * targets a leaf: forms with children are never mapped themselves.
   */
  predicate EntriesBelow(ws: seq<(string, Target)>, prefix: string) {
    forall k :: 0 <= k < |ws| ==>
      && StartsWith(ws[k].0, prefix)
      && (ws[k].1.Child? ==> !HasChildren(ws[k].1.form))
  }

  lemma EntriesBelowAppend(a: seq<(string, Target)>, b: seq<(string, Target)>, prefix: string)
    requires EntriesBelow(a, prefix) && EntriesBelow(b, prefix)
    ensures EntriesBelow(a + b, prefix)
  {
    forall k | 0 <= k < |a + b|
      ensures StartsWith((a + b)[k].0, prefix) && ((a + b)[k].1.Child? ==> !HasChildren((a + b)[k].1.form))
    {
      if k < |a| {
        assert (a + b)[k] == a[k];
      } else {
        assert (a + b)[k] == b[k - |a|];
      }
    }
  }

  /** Entries below a longer prefix are below a shorter one too. */
  lemma EntriesBelowWeaken(ws: seq<(string, Target)>, longer: string, prefix: string)
    requires EntriesBelow(ws, longer) && StartsWith(longer, prefix)
    ensures EntriesBelow(ws, prefix)
  {
    forall k | 0 <= k < |ws|
      ensures StartsWith(ws[k].0, prefix)
    {
      StartsWithTrans(ws[k].0, longer, prefix);
    }
  }

  lemma StartsWithAppend(s: string, t: string)
    ensures StartsWith(s + t, s)
  {
    assert (s + t)[..|s|] == s;
  }

  lemma ErrorMappingBelow(errorMapping: seq<(string, string)>, prefix: string, np: string)
    ensures EntriesBelow(ErrorMappingWrites(errorMapping, prefix, np), prefix)
  {
    var ws := ErrorMappingWrites(errorMapping, prefix, np);
    forall k | 0 <= k < |ws|
      ensures StartsWith(ws[k].0, prefix)
    {
      StartsWithAppend(prefix, errorMapping[k].0);
    }
  }

  /**
   * Every key `buildFormPathMapping($form, $mapping, formPath, namePath)` writes starts
   * with the dotted form path, and every form it maps is a leaf.
   */
  lemma {:induction false} FormWritesBelow(form: Form, formPath: string, namePath: string)
    ensures EntriesBelow(FormWrites(form, formPath, namePath), Dotted(formPath))
    decreases form, 2, 0
  {
    var fp, np := Dotted(formPath), Dotted(namePath);
    ChildFormWritesBelow(form, fp, np, |form.children|);
    ErrorMappingBelow(form.errorMapping, fp + "data.", np);
    StartsWithAppend(fp, "data.");
    EntriesBelowWeaken(ErrorMappingWrites(form.errorMapping, fp + "data.", np), fp + "data.", fp);
    EntriesBelowAppend(ChildFormWrites(form, fp, np, |form.children|), ErrorMappingWrites(form.errorMapping, fp + "data.", np), fp);
  }

  lemma {:induction false} ChildFormWritesBelow(form: Form, fp: string, np: string, n: nat)
    requires n <= |form.children|
    ensures EntriesBelow(ChildFormWrites(form, fp, np, n), fp)
    decreases form, 1, n
  {
    if n > 0 {
      ChildFormWritesBelow(form, fp, np, n - 1);
      OneChildFormWritesBelow(form.children[n - 1], fp, np);
      EntriesBelowAppend(ChildFormWrites(form, fp, np, n - 1), OneChildFormWrites(form.children[n - 1], fp, np), fp);
    }
  }

  lemma {:induction false} OneChildFormWritesBelow(child: Form, fp: string, np: string)
    ensures EntriesBelow(OneChildFormWrites(child, fp, np), fp)
    decreases child, 3, 0
  {
    var formPath := ChildFormPath(fp, child.propertyPath);
    var dataPath := fp + "data." + child.propertyPath;
    var namePath := np + child.name;
    ChildPathsBelow(fp, child.propertyPath);
    if HasChildren(child) {
      FormWritesBelow(child, formPath, namePath);
      DataWritesBelow(child, dataPath, namePath);
      EntriesBelowWeaken(FormWrites(child, formPath, namePath), Dotted(formPath), fp);
      EntriesBelowWeaken(DataWrites(child, dataPath, namePath), dataPath + ".", fp);
      EntriesBelowAppend(FormWrites(child, formPath, namePath), DataWrites(child, dataPath, namePath), fp);
    }
  }

  /** The form and data paths of a child, dotted or not, continue the parent's dotted form path. */
  lemma ChildPathsBelow(fp: string, propertyPath: string)
    ensures StartsWith(Dotted(ChildFormPath(fp, propertyPath)), fp)
    ensures StartsWith(fp + "data." + propertyPath + ".", fp)
  {
    var parts := Php.ExplodeLimit2('.', propertyPath);
    var base := fp + "children[" + parts[0] + "]";
    var formPath := ChildFormPath(fp, propertyPath);
    assert StartsWith(formPath, fp) by {
      assert base == fp + ("children[" + parts[0] + "]");
      StartsWithAppend(fp, "children[" + parts[0] + "]");
      if |parts| == 2 {
        StartsWithAppend(base, ".data." + parts[1]);
        assert formPath == base + (".data." + parts[1]);
        StartsWithTrans(formPath, base, fp);
      }
    }
    StartsWithAppend(formPath, ".");
    StartsWithTrans(Dotted(formPath), formPath, fp);
    assert fp + "data." + propertyPath + "." == fp + ("data." + propertyPath + ".");
    StartsWithAppend(fp, "data." + propertyPath + ".");
  }

  /**
   * Every key `buildDataPathMapping($form, $mapping, dataPath, namePath)` writes starts
   * with `dataPath.`, and every form it maps is a leaf.
   */
  lemma {:induction false} DataWritesBelow(form: Form, dataPath: string, namePath: string)
    ensures EntriesBelow(DataWrites(form, dataPath, namePath), dataPath + ".")
    decreases form, 2, 0
  {
    var np := Dotted(namePath);
    ChildDataWritesBelow(form, dataPath, np, |form.children|);
    ErrorMappingBelow(form.errorMapping, dataPath + ".", np);
    EntriesBelowAppend(ChildDataWrites(form, dataPath, np, |form.children|), ErrorMappingWrites(form.errorMapping, dataPath + ".", np), dataPath + ".");
  }

  lemma {:induction false} ChildDataWritesBelow(form: Form, dataPath: string, np: string, n: nat)
    requires n <= |form.children|
    ensures EntriesBelow(ChildDataWrites(form, dataPath, np, n), dataPath + ".")
    decreases form, 1, n
  {
    if n > 0 {
      ChildDataWritesBelow(form, dataPath, np, n - 1);
      OneChildDataWritesBelow(form.children[n - 1], dataPath, np);
      EntriesBelowAppend(ChildDataWrites(form, dataPath, np, n - 1), OneChildDataWrites(form.children[n - 1], dataPath, np), dataPath + ".");
    }
  }

  lemma {:induction false} OneChildDataWritesBelow(child: Form, dataPath: string, np: string)
    ensures EntriesBelow(OneChildDataWrites(child, dataPath, np), dataPath + ".")
    decreases child, 3, 0
  {
    var nested := dataPath + "." + child.propertyPath;
    StartsWithAppend(dataPath + ".", child.propertyPath);
    if HasChildren(child) {
      DataWritesBelow(child, nested, np + child.name);
      StartsWithAppend(nested, ".");
      StartsWithTrans(nested + ".", nested, dataPath + ".");
      EntriesBelowWeaken(DataWrites(child, nested, np + child.name), nested + ".", dataPath + ".");
    }
  }

  /**
   * A leaf whose property path is `a` is mapped under `children[a]` and `data.a`; one whose
   * property path is `a.b` under `children[a].data.b` and `data.a.b`.
   */
  lemma LeafFormWrites(child: Form, fp: string, np: string, a: string, b: string)
    requires !HasChildren(child) && '.' !in a
    ensures child.propertyPath == a ==>
      OneChildFormWrites(child, fp, np) == [(fp + "children[" + a + "]", Child(child)), (fp + "data." + a, Child(child))]
    ensures child.propertyPath == a + "." + b ==>
      OneChildFormWrites(child, fp, np) ==
        [(fp + "children[" + a + "].data." + b, Child(child)), (fp + "data." + a + "." + b, Child(child))]
  {
    ChildFormPathShape(fp, a, b);
    assert fp + "data." + (a + "." + b) == fp + "data." + a + "." + b;
  }

  /** Below a data path, a leaf is mapped under `dataPath.propertyPath`. */
  lemma LeafDataWrites(child: Form, dataPath: string, np: string)
    requires !HasChildren(child)
    ensures OneChildDataWrites(child, dataPath, np) == [(dataPath + "." + child.propertyPath, Child(child))]
  {
  }

  /**
   * Entry `j` of a form's `error_mapping` maps the form's data prefix followed by the
   * mapped data path to the placeholder of its name path followed by the mapped name,
   * after the entries of the children: in the form-path pass below `Dotted(formPath)
   * data.`, in the data-path pass below `dataPath.`.
   */
  lemma ErrorMappingEntries(form: Form, formPath: string, dataPath: string, namePath: string, j: nat)
    requires j < |form.errorMapping|
    ensures var fp, np := Dotted(formPath), Dotted(namePath);
      var ws := FormWrites(form, formPath, namePath);
      var at := |ChildFormWrites(form, fp, np, |form.children|)| + j;
      at < |ws| && ws[at] == (fp + "data." + form.errorMapping[j].0, Placeholder(np + form.errorMapping[j].1))
    ensures var np := Dotted(namePath);
      var ws := DataWrites(form, dataPath, namePath);
      var at := |ChildDataWrites(form, dataPath, np, |form.children|)| + j;
      at < |ws| && ws[at] == (dataPath + "." + form.errorMapping[j].0, Placeholder(np + form.errorMapping[j].1))
  {
  }

  /** Every write of an earlier turn of a loop over the children stays among the writes of the later turns. */
  lemma {:induction false} ChildNameWritesGrow(form: Form, np: string, i: nat, n: nat)
    requires i < n <= |form.children|
    ensures forall e :: e in OneChildNameWrites(form.children[i], np) ==> e in ChildNameWrites(form, np, n)
  {
    if i < n - 1 {
      ChildNameWritesGrow(form, np, i, n - 1);
    }
  }

  /**
   * `buildNamePathMapping($form, $forms, namePath)` records every child under its name
   * appended to the dotted name path, and everything recorded for a child's own children
   * too: every descendant is recorded under its dot-joined name path.
   */
  lemma NameWritesRecordChildren(form: Form, namePath: string, i: nat)
    requires i < |form.children|
    ensures var child := form.children[i];
      var nested := Dotted(namePath) + child.name;
      && (nested, child) in NameWrites(form, namePath)
      && (HasChildren(child) ==> forall e :: e in NameWrites(child, nested) ==> e in NameWrites(form, namePath))
  {
    ChildNameWritesGrow(form, Dotted(namePath), i, |form.children|);
  }

  /** Below the root, whose name path is empty, a child is recorded under its bare name. */
  lemma RootNamePaths(root: Form, i: nat)
    requires i < |root.children|
    ensures (root.children[i].name, root.children[i]) in NameWrites(root, "")
  {
    NameWritesRecordChildren(root, "", i);
    assert Dotted("") + root.children[i].name == root.children[i].name;
  }
}
