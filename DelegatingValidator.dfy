/**
 * The form validator that delegates to the validator component and maps the violations
 * it reports back onto the forms of the tree.  Before validating a root form it builds
 * an insertion-ordered mapping from path patterns to target forms -- one for each leaf's
 * form path (`children[a].data.b`) and data path (`data.a.b`), and one for each entry of
 * a form's `error_mapping`, whose target is a name path to be resolved -- and a table of
 * every descendant by its dot-joined name path.  Each violation then becomes a FormError
 * on the first form whose pattern matches the violation's property path, or on the root.
 *
 * A pattern `/^P(?!\w)/` is modelled by its prefix `P` and the predicate `Matches`; the
 * mapping is keyed by these prefixes.
 */
module FormValidation {
  import opened Wrappers
  import opened OrderedMaps
  import Php

  /**
   * A form: `id` stands for its object identity, `propertyPath` is its `property_path`
   * attribute cast to a string, `children` are its children as the virtual-form iterator
   * yields them (a virtual child is replaced by its own children, recursively),
   * `hasChildren` is what `$form->hasChildren()` answers about its own children, virtual
   * ones included, and `errorMapping` its `error_mapping` attribute (data path => name path).
   * So a form whose only children are empty virtual forms has children but yields none.
   */
  datatype Form = Form(
    id: nat,
    name: string,
    propertyPath: string,
    children: seq<Form>,
    hasChildren: bool,
    errorMapping: seq<(string, string)>)

  /** `$form->hasChildren()`. */
  predicate HasChildren(f: Form) {
    f.hasChildren
  }

  /** A value of the mapping: a child form, or a name path still to be resolved. */
  datatype Target = Child(form: Form) | Placeholder(namePath: string)

  datatype Violation = Violation(propertyPath: string, messageTemplate: string, messageParameters: seq<(string, string)>)

  datatype FormError = FormError(messageTemplate: string, messageParameters: seq<(string, string)>)

  /** `$form->addError($error)`: the form and the error it received. */
  datatype Attachment = Attachment(form: Form, error: FormError)

  datatype FormException = FormException(message: string)

  function MissingChildMessage(namePath: string): string {
    "The child form with path \"" + namePath + "\" does not exist"
  }

  /** `preg_match('/^' . preg_quote(prefix) . '(?!\w)/', path)`. */
  predicate Matches(prefix: string, path: string) {
    && |prefix| <= |path|
    && path[..|prefix|] == prefix
    && (|path| == |prefix| || !Php.IsWordChar(path[|prefix|]))
  }

  /**
   * A pattern matches exactly the path itself and the paths that continue it with a
   * character that is not a word character.
   */
  lemma MatchesIff(prefix: string, path: string)
    ensures Matches(prefix, path) <==>
      path == prefix ||
      exists c: char, rest: string :: path == prefix + [c] + rest && !Php.IsWordChar(c)
  {
    if Matches(prefix, path) && path != prefix {
      var c, rest := path[|prefix|], path[|prefix| + 1..];
      assert path == prefix + [c] + rest;
    }
    if exists c: char, rest: string :: path == prefix + [c] + rest && !Php.IsWordChar(c) {
      var c: char, rest: string :| path == prefix + [c] + rest && !Php.IsWordChar(c);
      assert path[..|prefix|] == prefix && path[|prefix|] == c;
    }
  }

  /** A prefix and the text that follows it. */
  predicate StartsWith(s: string, prefix: string) {
    |prefix| <= |s| && s[..|prefix|] == prefix
  }

  lemma StartsWithTrans(s: string, t: string, prefix: string)
    requires StartsWith(s, t) && StartsWith(t, prefix)
    ensures StartsWith(s, prefix)
  {
    assert s[..|prefix|] == t[..|prefix|];
  }

  /** `if ($path) { $path .= '.'; }` */
  function Dotted(path: string): string {
    if Php.Truthy(path) then path + "." else path
  }

  /**
   * The form path of a child below `formPath` (already dotted): `children[a]` for the
   * property path `a`, and `children[a].data.b` for the property path `a.b`.
   */
  function ChildFormPath(formPath: string, propertyPath: string): string {
    var parts := Php.ExplodeLimit2('.', propertyPath);
    var base := formPath + "children[" + parts[0] + "]";
    if |parts| == 2 then base + ".data." + parts[1] else base
  }

  /** The form path of property paths with and without a dot. */
  lemma ChildFormPathShape(formPath: string, a: string, b: string)
    requires '.' !in a
    ensures ChildFormPath(formPath, a) == formPath + "children[" + a + "]"
    ensures ChildFormPath(formPath, a + "." + b) == formPath + "children[" + a + "].data." + b
  {
    Php.ExplodeLimit2Split('.', a, b);
    assert Php.ExplodeLimit2('.', a) == [a] by {
      var parts := Php.ExplodeLimit2('.', a);
      assert Php.Implode(['.'], parts) == parts[0];
    }
  }

  /** `$mapping[prefix . $dataPath] = $namePath . $mappedName` for each `error_mapping` entry, in order. */
  function ErrorMappingWrites(errorMapping: seq<(string, string)>, prefix: string, namePath: string): seq<(string, Target)> {
    seq(|errorMapping|, k requires 0 <= k < |errorMapping| =>
      (prefix + errorMapping[k].0, Placeholder(namePath + errorMapping[k].1)))
  }

  /** The writes `buildFormPathMapping($form, $mapping, formPath, namePath)` performs, in order. */
  function FormWrites(form: Form, formPath: string, namePath: string): seq<(string, Target)>
    decreases form, 2, 0
  {
    var fp, np := Dotted(formPath), Dotted(namePath);
    ChildFormWrites(form, fp, np, |form.children|) + ErrorMappingWrites(form.errorMapping, fp + "data.", np)
  }

  /** The writes caused by the first `n` children in `buildFormPathMapping`'s loop. */
  function ChildFormWrites(form: Form, fp: string, np: string, n: nat): seq<(string, Target)>
    requires n <= |form.children|
    decreases form, 1, n
  {
    if n == 0 then []
    else ChildFormWrites(form, fp, np, n - 1) + OneChildFormWrites(form.children[n - 1], fp, np)
  }

  /**
   * One turn of `buildFormPathMapping`'s loop: a child with children is descended into
   * twice, by form path and by data path; a leaf is mapped under both of its paths.
   */
  function OneChildFormWrites(child: Form, fp: string, np: string): seq<(string, Target)>
    decreases child, 3, 0
  {
    var formPath := ChildFormPath(fp, child.propertyPath);
    var dataPath := fp + "data." + child.propertyPath;
    var namePath := np + child.name;
    if HasChildren(child) then FormWrites(child, formPath, namePath) + DataWrites(child, dataPath, namePath)
    else [(formPath, Child(child)), (dataPath, Child(child))]
  }

  /** The writes `buildDataPathMapping($form, $mapping, dataPath, namePath)` performs, in order. */
  function DataWrites(form: Form, dataPath: string, namePath: string): seq<(string, Target)>
    decreases form, 2, 0
  {
    var np := Dotted(namePath);
    ChildDataWrites(form, dataPath, np, |form.children|) + ErrorMappingWrites(form.errorMapping, dataPath + ".", np)
  }

  /** The writes caused by the first `n` children in `buildDataPathMapping`'s loop. */
  function ChildDataWrites(form: Form, dataPath: string, np: string, n: nat): seq<(string, Target)>
    requires n <= |form.children|
    decreases form, 1, n
  {
    if n == 0 then []
    else ChildDataWrites(form, dataPath, np, n - 1) + OneChildDataWrites(form.children[n - 1], dataPath, np)
  }

  /** One turn of `buildDataPathMapping`'s loop. */
  function OneChildDataWrites(child: Form, dataPath: string, np: string): seq<(string, Target)>
    decreases child, 3, 0
  {
    var nested := dataPath + "." + child.propertyPath;
    if HasChildren(child) then DataWrites(child, nested, np + child.name)
    else [(nested, Child(child))]
  }

  /** The writes `buildNamePathMapping($form, $forms, namePath)` performs, in order. */
  function NameWrites(form: Form, namePath: string): seq<(string, Form)>
    decreases form, 2, 0
  {
    ChildNameWrites(form, Dotted(namePath), |form.children|)
  }

  function ChildNameWrites(form: Form, np: string, n: nat): seq<(string, Form)>
    requires n <= |form.children|
    decreases form, 1, n
  {
    if n == 0 then []
    else ChildNameWrites(form, np, n - 1) + OneChildNameWrites(form.children[n - 1], np)
  }

  /** One turn of `buildNamePathMapping`'s loop: the child itself, then its descendants. */
  function OneChildNameWrites(child: Form, np: string): seq<(string, Form)>
    decreases child, 3, 0
  {
    var namePath := np + child.name;
    [(namePath, child)] + (if HasChildren(child) then NameWrites(child, namePath) else [])
  }

  /** The mapping `validate` builds for a root form, before placeholders are resolved. */
  function RootMapping(root: Form): OrderedMap<Target> {
    PutAll(PutAll([], FormWrites(root, "", "")), DataWrites(root, "data", ""))
  }

  /** The name-path table `validate` builds for a root form. */
  function RootForms(root: Form): OrderedMap<Form> {
    PutAll([], NameWrites(root, ""))
  }

  /** The target a placeholder stands for, or the exception for a name path that is not registered. */
  function ResolveTarget(t: Target, forms: OrderedMap<Form>): Result<Target, FormException> {
    match t
    case Child(_) => Success(t)
    case Placeholder(p) =>
      match Get(forms, p)
      case None => Failure(FormException(MissingChildMessage(p)))
      case Some(f) => Success(Child(f))
  }

  /** `resolveMappingPlaceholders` on the entries from `i` on. */
  function Resolved(mapping: OrderedMap<Target>, forms: OrderedMap<Form>, i: nat): Result<OrderedMap<Target>, FormException>
    requires i <= |mapping|
    decreases |mapping| - i
  {
    if i == |mapping| then Success([])
    else
      match ResolveTarget(mapping[i].1, forms)
      case Failure(e) => Failure(e)
      case Success(t) =>
        match Resolved(mapping, forms, i + 1)
        case Failure(e) => Failure(e)
        case Success(rest) => Success([(mapping[i].0, t)] + rest)
  }

  /** Resolving succeeds exactly when every placeholder names a registered form. */
  lemma {:induction false} ResolvedSucceeds(mapping: OrderedMap<Target>, forms: OrderedMap<Form>, i: nat)
    requires i <= |mapping|
    ensures Resolved(mapping, forms, i).Success? <==>
      forall j :: i <= j < |mapping| && mapping[j].1.Placeholder? ==> HasKey(forms, mapping[j].1.namePath)
    decreases |mapping| - i
  {
    if i < |mapping| {
      ResolvedSucceeds(mapping, forms, i + 1);
    }
  }

  /**
   * A successful resolution keeps every key in its position and replaces every
   * placeholder by the form registered under its name path, so no placeholder remains.
   */
  lemma {:induction false} ResolvedShape(mapping: OrderedMap<Target>, forms: OrderedMap<Form>, i: nat)
    requires i <= |mapping| && Resolved(mapping, forms, i).Success?
    ensures var r := Resolved(mapping, forms, i).value;
      && |r| == |mapping| - i
      && forall j :: i <= j < |mapping| ==>
           && r[j - i].0 == mapping[j].0
           && r[j - i].1.Child?
           && (mapping[j].1.Child? ==> r[j - i].1 == mapping[j].1)
           && (mapping[j].1.Placeholder? ==> Some(r[j - i].1.form) == Get(forms, mapping[j].1.namePath))
    decreases |mapping| - i
  {
    if i < |mapping| {
      ResolvedShape(mapping, forms, i + 1);
      var t := ResolveTarget(mapping[i].1, forms).value;
      var rest := Resolved(mapping, forms, i + 1).value;
      var r := Resolved(mapping, forms, i).value;
      assert r == [(mapping[i].0, t)] + rest;
      forall j | i <= j < |mapping|
        ensures && r[j - i].0 == mapping[j].0
                && r[j - i].1.Child?
                && (mapping[j].1.Child? ==> r[j - i].1 == mapping[j].1)
                && (mapping[j].1.Placeholder? ==> Some(r[j - i].1.form) == Get(forms, mapping[j].1.namePath))
      {
        if j > i {
          assert r[j - i] == rest[j - (i + 1)];
        }
      }
    }
  }

  /** A failed resolution reports the first placeholder whose name path is not registered. */
  lemma {:induction false} ResolvedFailure(mapping: OrderedMap<Target>, forms: OrderedMap<Form>, i: nat) returns (j: nat)
    requires i <= |mapping| && Resolved(mapping, forms, i).Failure?
    ensures i <= j < |mapping|
    ensures mapping[j].1.Placeholder? && !HasKey(forms, mapping[j].1.namePath)
    ensures forall l :: i <= l < j && mapping[l].1.Placeholder? ==> HasKey(forms, mapping[l].1.namePath)
    ensures Resolved(mapping, forms, i).error == FormException(MissingChildMessage(mapping[j].1.namePath))
    decreases |mapping| - i
  {
    if ResolveTarget(mapping[i].1, forms).Failure? {
      j := i;
    } else {
      j := ResolvedFailure(mapping, forms, i + 1);
    }
  }

  /** The index of the first entry whose pattern matches `path`. */
  function FirstMatch(mapping: OrderedMap<Target>, path: string): (r: Option<nat>)
    ensures r.Some? ==> r.value < |mapping| && Matches(mapping[r.value].0, path)
    ensures r.Some? ==> forall j :: 0 <= j < r.value ==> !Matches(mapping[j].0, path)
    ensures r.None? ==> forall j :: 0 <= j < |mapping| ==> !Matches(mapping[j].0, path)
  {
    if mapping == [] then None
    else if Matches(mapping[0].0, path) then Some(0)
    else match FirstMatch(mapping[1..], path)
      case None => None
      case Some(i) => Some(i + 1)
  }

  /** The form that receives the error for a violation at `path`. */
  function Recipient(mapping: OrderedMap<Target>, root: Form, path: string): Form
    requires forall j :: 0 <= j < |mapping| ==> mapping[j].1.Child?
  {
    match FirstMatch(mapping, path)
    case None => root
    case Some(i) => mapping[i].1.form
  }

  function ErrorOf(v: Violation): FormError {
    FormError(v.messageTemplate, v.messageParameters)
  }

  /**
   * The error for violation `v` went where `validate` routes it: to the form of the first
   * entry whose pattern matches the violation's path, or to the root when none does.
   */
  predicate RoutedTo(mapping: OrderedMap<Target>, root: Form, v: Violation, a: Attachment) {
    && a.error == ErrorOf(v)
    && match FirstMatch(mapping, v.propertyPath)
       case None => a.form == root
       case Some(i) => mapping[i].1 == Child(a.form)
  }

  class DelegatingValidator {
    /** `$this->validator->validate($form)`: the violations the validator component reports. */
    const validator: Form -> seq<Violation>

    constructor(validator: Form -> seq<Violation>)
      ensures this.validator == validator
    {
      this.validator := validator;
    }

    /**
     * `validate($form)`: nothing for a form that is not the root.  For the root, the
     * exception of an unresolvable error mapping, or else one error per violation, in
     * order, each on the form its path routes to.
     */
    method Validate(form: Form, isRoot: bool) returns (r: Outcome<FormException>, added: seq<Attachment>)
      ensures !isRoot ==> r == Pass && added == []
      ensures isRoot && Resolved(RootMapping(form), RootForms(form), 0).Failure? ==>
        r == Fail(Resolved(RootMapping(form), RootForms(form), 0).error) && added == []
      ensures isRoot && Resolved(RootMapping(form), RootForms(form), 0).Success? ==>
        var mapping := Resolved(RootMapping(form), RootForms(form), 0).value;
        var violations := validator(form);
        && r == Pass
        && |added| == |violations|
        && forall k :: 0 <= k < |added| ==> RoutedTo(mapping, form, violations[k], added[k])
    {
      added := [];
      if !isRoot {
        return Pass, added;
      }
      var mapping := BuildFormPathMapping(form, [], "", "");
      mapping := BuildDataPathMapping(form, mapping, "data", "");
      var forms := BuildNamePathMapping(form, [], "");
      PutAllKeys([], FormWrites(form, "", ""));
      PutAllKeys(PutAll([], FormWrites(form, "", "")), DataWrites(form, "data", ""));
      var resolved := ResolveMappingPlaceholders(mapping, forms);
      if resolved.Failure? {
        return Fail(resolved.error), added;
      }
      mapping := resolved.value;
      ResolvedChildren(RootMapping(form), RootForms(form), 0);
      added := AttachErrors(mapping, form, validator(form));
      return Pass, added;
    }

    /**
     * The loop over the violations in `validate`: one error per violation, in order, on
     * the first mapped form whose pattern matches its path or else on the root.
     */
    method AttachErrors(mapping: OrderedMap<Target>, root: Form, violations: seq<Violation>) returns (added: seq<Attachment>)
      requires forall j :: 0 <= j < |mapping| ==> mapping[j].1.Child?
      ensures |added| == |violations|
      ensures forall k :: 0 <= k < |added| ==> RoutedTo(mapping, root, violations[k], added[k])
    {
      added := [];
      for k := 0 to |violations|
        invariant |added| == k
        invariant forall l :: 0 <= l < k ==> RoutedTo(mapping, root, violations[l], added[l])
      {
        var violation := violations[k];
        var error := FormError(violation.messageTemplate, violation.messageParameters);
        var i := 0;
        while i < |mapping| && !Matches(mapping[i].0, violation.propertyPath)
          invariant i <= |mapping|
          invariant forall j :: 0 <= j < i ==> !Matches(mapping[j].0, violation.propertyPath)
        {
          i := i + 1;
        }
        FirstMatchIs(mapping, violation.propertyPath, i);
        var target := if i < |mapping| then mapping[i].1.form else root;
        assert RoutedTo(mapping, root, violation, Attachment(target, error));
        added := added + [Attachment(target, error)];
      }
    }

    /** `buildFormPathMapping($form, $mapping, $formPath, $namePath)`; `mapping` is the array passed by reference. */
    method BuildFormPathMapping(form: Form, mapping: OrderedMap<Target>, formPath: string, namePath: string)
      returns (m: OrderedMap<Target>)
      ensures m == PutAll(mapping, FormWrites(form, formPath, namePath))
      decreases form, 0
    {
      var fp, np := Dotted(formPath), Dotted(namePath);
      m := mapping;
      ghost var steps := FormSteps(form, fp, np);
      for i := 0 to |form.children|
        invariant m == PutAll(mapping, Concat(steps[..i]))
      {
        ghost var before := m;
        m := MapChildForm(form.children[i], m, fp, np);
        ConcatStep(mapping, steps, i, before, m);
      }
      ChildFormWritesSteps(form, fp, np, |form.children|);
      ghost var built := m;
      m := MapErrorPaths(m, form.errorMapping, fp + "data.", np);
      SeriesStep(mapping, ChildFormWrites(form, fp, np, |form.children|), ErrorMappingWrites(form.errorMapping, fp + "data.", np), built, m);
    }

    /** One turn of `buildFormPathMapping`'s loop over the children; `fp` and `np` are already dotted. */
    method MapChildForm(child: Form, mapping: OrderedMap<Target>, fp: string, np: string)
      returns (m: OrderedMap<Target>)
      ensures m == PutAll(mapping, OneChildFormWrites(child, fp, np))
      decreases child, 1
    {
      var path := child.propertyPath;
      var parts := Php.ExplodeLimit2('.', path);
      var nestedNamePath := np + child.name;
      var nestedFormPath := fp + "children[" + parts[0] + "]";
      if |parts| == 2 {
        nestedFormPath := nestedFormPath + ".data." + parts[1];
      }
      var nestedDataPath := fp + "data." + path;
      assert nestedFormPath == ChildFormPath(fp, path);
      if HasChildren(child) {
        m := BuildFormPathMapping(child, mapping, nestedFormPath, nestedNamePath);
        m := BuildDataPathMapping(child, m, nestedDataPath, nestedNamePath);
        PutAllAppend(mapping, FormWrites(child, nestedFormPath, nestedNamePath), DataWrites(child, nestedDataPath, nestedNamePath));
      } else {
        m := Put(mapping, nestedFormPath, Child(child));
        m := Put(m, nestedDataPath, Child(child));
        PutTwice(mapping, nestedFormPath, nestedDataPath, Child(child), Child(child));
      }
    }

    /**
     * The loop over a form's `error_mapping` in both builders: `prefix` is the form's
     * data-path prefix and `np` its dotted name path.
     */
    method MapErrorPaths(mapping: OrderedMap<Target>, errorMapping: seq<(string, string)>, prefix: string, np: string)
      returns (m: OrderedMap<Target>)
      ensures m == PutAll(mapping, ErrorMappingWrites(errorMapping, prefix, np))
    {
      m := mapping;
      for j := 0 to |errorMapping|
        invariant m == PutAll(mapping, ErrorMappingWrites(errorMapping[..j], prefix, np))
      {
        var (nestedDataPath, nestedNamePath) := errorMapping[j];
        ErrorMappingStep(mapping, errorMapping, prefix, np, j);
        m := Put(m, prefix + nestedDataPath, Placeholder(np + nestedNamePath));
      }
      assert errorMapping[..|errorMapping|] == errorMapping;
    }

    /** `buildDataPathMapping($form, $mapping, $dataPath, $namePath)`. */
    method BuildDataPathMapping(form: Form, mapping: OrderedMap<Target>, dataPath: string, namePath: string)
      returns (m: OrderedMap<Target>)
      ensures m == PutAll(mapping, DataWrites(form, dataPath, namePath))
      decreases form, 0
    {
      var np := Dotted(namePath);
      m := mapping;
      ghost var steps := DataSteps(form, dataPath, np);
      for i := 0 to |form.children|
        invariant m == PutAll(mapping, Concat(steps[..i]))
      {
        ghost var before := m;
        m := MapChildData(form.children[i], m, dataPath, np);
        ConcatStep(mapping, steps, i, before, m);
      }
      ChildDataWritesSteps(form, dataPath, np, |form.children|);
      m := MapErrorPaths(m, form.errorMapping, dataPath + ".", np);
      PutAllAppend(mapping, ChildDataWrites(form, dataPath, np, |form.children|), ErrorMappingWrites(form.errorMapping, dataPath + ".", np));
    }

    /** One turn of `buildDataPathMapping`'s loop over the children; `np` is already dotted. */
    method MapChildData(child: Form, mapping: OrderedMap<Target>, dataPath: string, np: string)
      returns (m: OrderedMap<Target>)
      ensures m == PutAll(mapping, OneChildDataWrites(child, dataPath, np))
      decreases child, 1
    {
      var nestedNamePath := np + child.name;
      var nestedDataPath := dataPath + "." + child.propertyPath;
      if HasChildren(child) {
        m := BuildDataPathMapping(child, mapping, nestedDataPath, nestedNamePath);
      } else {
        m := Put(mapping, nestedDataPath, Child(child));
        PutOnce(mapping, nestedDataPath, Child(child));
      }
    }

    /** `buildNamePathMapping($form, $forms, $namePath)`; `forms` is the array passed by reference. */
    method BuildNamePathMapping(form: Form, forms: OrderedMap<Form>, namePath: string)
      returns (m: OrderedMap<Form>)
      ensures m == PutAll(forms, NameWrites(form, namePath))
      decreases form, 0
    {
      var np := Dotted(namePath);
      m := forms;
      ghost var steps := NameSteps(form, np);
      for i := 0 to |form.children|
        invariant m == PutAll(forms, Concat(steps[..i]))
      {
        ghost var before := m;
        m := MapChildName(form.children[i], m, np);
        ConcatStep(forms, steps, i, before, m);
      }
      ChildNameWritesSteps(form, np, |form.children|);
    }

    /** One turn of `buildNamePathMapping`'s loop over the children; `np` is already dotted. */
    method MapChildName(child: Form, forms: OrderedMap<Form>, np: string)
      returns (m: OrderedMap<Form>)
      ensures m == PutAll(forms, OneChildNameWrites(child, np))
      decreases child, 1
    {
      var nestedNamePath := np + child.name;
      m := Put(forms, nestedNamePath, child);
      PutOnce(forms, nestedNamePath, child);
      if HasChildren(child) {
        m := BuildNamePathMapping(child, m, nestedNamePath);
        PutAllAppend(forms, [(nestedNamePath, child)], NameWrites(child, nestedNamePath));
      } else {
        assert [(nestedNamePath, child)] + [] == [(nestedNamePath, child)];
      }
    }

    /**
     * `resolveMappingPlaceholders($mapping, $forms)`: the rewritten mapping, or the
     * FormException for the first placeholder whose name path is not registered.
     */
    method ResolveMappingPlaceholders(mapping: OrderedMap<Target>, forms: OrderedMap<Form>)
      returns (r: Result<OrderedMap<Target>, FormException>)
      requires UniqueKeys(mapping)
      ensures r == Resolved(mapping, forms, 0)
    {
      var m := mapping;
      for i := 0 to |mapping|
        invariant |m| == |mapping|
        invariant forall j :: 0 <= j < |mapping| ==> m[j].0 == mapping[j].0
        invariant forall j :: i <= j < |mapping| ==> m[j] == mapping[j]
        invariant forall j :: 0 <= j < i ==> ResolveTarget(mapping[j].1, forms) == Success(m[j].1)
      {
        var (pattern, target) := mapping[i];
        if target.Placeholder? {
          var f := Get(forms, target.namePath);
          if f.None? {
            r := Failure(FormException(MissingChildMessage(target.namePath)));
            ResolvedFailsAt(mapping, forms, i, 0);
            return r;
          }
          PutAtIndex(m, mapping, pattern, Child(f.value), i);
          m := Put(m, pattern, Child(f.value));
        }
      }
      ResolvedAll(mapping, forms, m, 0);
      return Success(m);
    }
  }

  /** The first entry that matches is the one before which none does. */
  lemma {:induction false} FirstMatchIs(mapping: OrderedMap<Target>, path: string, i: nat)
    requires i <= |mapping|
    requires forall j :: 0 <= j < i ==> !Matches(mapping[j].0, path)
    requires i < |mapping| ==> Matches(mapping[i].0, path)
    ensures FirstMatch(mapping, path) == if i < |mapping| then Some(i) else None
  {
    if mapping != [] && i > 0 {
      FirstMatchIs(mapping[1..], path, i - 1);
    }
  }

  /** After resolving, every target is a form. */
  lemma {:induction false} ResolvedChildren(mapping: OrderedMap<Target>, forms: OrderedMap<Form>, i: nat)
    requires i <= |mapping|
    ensures Resolved(mapping, forms, i).Success? ==>
      forall j :: 0 <= j < |Resolved(mapping, forms, i).value| ==> Resolved(mapping, forms, i).value[j].1.Child?
    decreases |mapping| - i
  {
    if i < |mapping| {
      ResolvedChildren(mapping, forms, i + 1);
    }
  }

  /** The writes of each turn of `buildFormPathMapping`'s loop, child by child. */
  function FormSteps(form: Form, fp: string, np: string): seq<seq<(string, Target)>> {
    seq(|form.children|, j requires 0 <= j < |form.children| => OneChildFormWrites(form.children[j], fp, np))
  }

  /** The writes of each turn of `buildDataPathMapping`'s loop, child by child. */
  function DataSteps(form: Form, dataPath: string, np: string): seq<seq<(string, Target)>> {
    seq(|form.children|, j requires 0 <= j < |form.children| => OneChildDataWrites(form.children[j], dataPath, np))
  }

  /** The writes of each turn of `buildNamePathMapping`'s loop, child by child. */
  function NameSteps(form: Form, np: string): seq<seq<(string, Form)>> {
    seq(|form.children|, j requires 0 <= j < |form.children| => OneChildNameWrites(form.children[j], np))
  }

  /** The series `ws[0] + ws[1] + ...`. */
  function Concat<T>(ws: seq<seq<T>>): seq<T> {
    if ws == [] then [] else Concat(ws[..|ws| - 1]) + ws[|ws| - 1]
  }

  /** One more turn of a loop whose turns write the series `steps`. */
  lemma ConcatStep<V>(m0: OrderedMap<V>, steps: seq<seq<(string, V)>>, i: nat, m1: OrderedMap<V>, m2: OrderedMap<V>)
    requires i < |steps|
    requires m1 == PutAll(m0, Concat(steps[..i])) && m2 == PutAll(m1, steps[i])
    ensures m2 == PutAll(m0, Concat(steps[..i + 1]))
  {
    assert steps[..i + 1][..i] == steps[..i];
    PutAllAppend(m0, Concat(steps[..i]), steps[i]);
  }

  lemma {:induction false} ChildFormWritesSteps(form: Form, fp: string, np: string, n: nat)
    requires n <= |form.children|
    ensures ChildFormWrites(form, fp, np, n) == Concat(FormSteps(form, fp, np)[..n])
  {
    var steps := FormSteps(form, fp, np);
    if n > 0 {
      ChildFormWritesSteps(form, fp, np, n - 1);
      assert steps[..n][..n - 1] == steps[..n - 1];
    }
  }

  lemma {:induction false} ChildDataWritesSteps(form: Form, dataPath: string, np: string, n: nat)
    requires n <= |form.children|
    ensures ChildDataWrites(form, dataPath, np, n) == Concat(DataSteps(form, dataPath, np)[..n])
  {
    var steps := DataSteps(form, dataPath, np);
    if n > 0 {
      ChildDataWritesSteps(form, dataPath, np, n - 1);
      assert steps[..n][..n - 1] == steps[..n - 1];
    }
  }

  lemma {:induction false} ChildNameWritesSteps(form: Form, np: string, n: nat)
    requires n <= |form.children|
    ensures ChildNameWrites(form, np, n) == Concat(NameSteps(form, np)[..n])
  {
    var steps := NameSteps(form, np);
    if n > 0 {
      ChildNameWritesSteps(form, np, n - 1);
      assert steps[..n][..n - 1] == steps[..n - 1];
    }
  }

  /** A series of writes followed by another is one series. */
  lemma SeriesStep<V>(m0: OrderedMap<V>, done: seq<(string, V)>, more: seq<(string, V)>, m1: OrderedMap<V>, m2: OrderedMap<V>)
    requires m1 == PutAll(m0, done) && m2 == PutAll(m1, more)
    ensures m2 == PutAll(m0, done + more)
  {
    PutAllAppend(m0, done, more);
  }

  /** Two writes in a row, as a series. */
  lemma PutTwice<V>(m: OrderedMap<V>, k1: string, k2: string, v1: V, v2: V)
    ensures Put(Put(m, k1, v1), k2, v2) == PutAll(m, [(k1, v1), (k2, v2)])
  {
    var es := [(k1, v1), (k2, v2)];
    assert es[..1] == [(k1, v1)];
    PutOnce(m, k1, v1);
    assert PutAll(m, es) == Put(PutAll(m, es[..1]), k2, v2);
  }

  lemma PutOnce<V>(m: OrderedMap<V>, k: string, v: V)
    ensures Put(m, k, v) == PutAll(m, [(k, v)])
  {
    assert [(k, v)][..0] == [];
  }

  /** One more error-mapping entry written. */
  lemma ErrorMappingStep(built: OrderedMap<Target>, em: seq<(string, string)>, prefix: string, np: string, j: nat)
    requires j < |em|
    ensures PutAll(built, ErrorMappingWrites(em[..j + 1], prefix, np)) ==
      Put(PutAll(built, ErrorMappingWrites(em[..j], prefix, np)), prefix + em[j].0, Placeholder(np + em[j].1))
  {
    var ws := ErrorMappingWrites(em[..j + 1], prefix, np);
    assert ws[..|ws| - 1] == ErrorMappingWrites(em[..j], prefix, np);
  }

  /** Writing the key found at index `i` of a map with unique keys replaces that entry in place. */
  lemma PutAtIndex<V>(m: OrderedMap<V>, original: OrderedMap<V>, k: string, v: V, i: nat)
    requires UniqueKeys(original) && |m| == |original| && i < |m|
    requires forall j :: 0 <= j < |m| ==> m[j].0 == original[j].0
    requires original[i].0 == k
    ensures Put(m, k, v) == m[i := (k, v)]
  {
    assert IndexOf(m, k) == Some(i);
  }

  lemma {:induction false} ResolvedFailsAt(mapping: OrderedMap<Target>, forms: OrderedMap<Form>, i: nat, from: nat)
    requires from <= i < |mapping|
    requires mapping[i].1.Placeholder? && Get(forms, mapping[i].1.namePath).None?
    requires forall j :: from <= j < i ==> ResolveTarget(mapping[j].1, forms).Success?
    ensures Resolved(mapping, forms, from) == Failure(FormException(MissingChildMessage(mapping[i].1.namePath)))
    decreases i - from
  {
    if from < i {
      ResolvedFailsAt(mapping, forms, i, from + 1);
    }
  }

  lemma {:induction false} ResolvedAll(mapping: OrderedMap<Target>, forms: OrderedMap<Form>, m: OrderedMap<Target>, from: nat)
    requires from <= |mapping| == |m|
    requires forall j :: 0 <= j < |mapping| ==> m[j].0 == mapping[j].0
    requires forall j :: from <= j < |mapping| ==> ResolveTarget(mapping[j].1, forms) == Success(m[j].1)
    ensures Resolved(mapping, forms, from) == Success(m[from..])
    decreases |mapping| - from
  {
    if from < |mapping| {
      ResolvedAll(mapping, forms, m, from + 1);
      assert m[from..] == [m[from]] + m[from + 1..];
    }
  }
}
