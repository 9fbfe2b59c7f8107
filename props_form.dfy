/**
 * The props editing form (src/props-form.tsx): which prop groups are
 * offered for editing, and the structural update one slider makes, which
 * the provider forwards to the coordinator as UPDATE_PROPS
 * (src/context.tsx).
 */
module PropsForm {
  import opened Values
  import opened Coordinator

  /** `VALID_PROPS`: the only groups the form offers. */
  const ValidProps: set<string> := {"animate", "initial"}

  /**
   * The entries the form shows, from `Object.entries(props)` in its
   * enumeration order: exactly the editable groups, never more entries.
   */
  function EditableEntries(entries: seq<(string, Value)>): (r: seq<(string, Value)>)
    ensures forall x :: x in r <==> x in entries && x.0 in ValidProps
    ensures |r| <= |entries|
    decreases |entries|
  {
    if entries == [] then []
    else (if entries[0].0 in ValidProps then [entries[0]] else []) + EditableEntries(entries[1..])
  }

  /** Filtering distributes over concatenation, so the kept groups stay in their order. */
  lemma {:induction false} EditableEntriesAppend(a: seq<(string, Value)>, b: seq<(string, Value)>)
    ensures EditableEntries(a + b) == EditableEntries(a) + EditableEntries(b)
    decreases |a|
  {
    if a == [] {
      assert a + b == b;
    } else {
      assert (a + b)[0] == a[0];
      assert (a + b)[1..] == a[1..] + b;
      EditableEntriesAppend(a[1..], b);
    }
  }

  /** Filtering twice is filtering once. */
  lemma {:induction false} EditableEntriesIdempotent(entries: seq<(string, Value)>)
    ensures EditableEntries(EditableEntries(entries)) == EditableEntries(entries)
    decreases |entries|
  {
    if entries != [] {
      var head := if entries[0].0 in ValidProps then [entries[0]] else [];
      EditableEntriesIdempotent(entries[1..]);
      EditableEntriesAppend(head, EditableEntries(entries[1..]));
      if head != [] {
        assert head[1..] == [];
      }
    }
  }

  /**
   * The slider's `onChange`: `{...props, [group]: {...values, [key]: n}}`,
   * where `values` is `props[group]`.
   */
  function Edit(props: Props, group: string, key: string, n: int): (r: Props)
    ensures r.Keys == props.Keys + {group}
    ensures group in r && r[group].Obj? && key in r[group].fields && r[group].fields[key] == Num(n)
    ensures forall g :: g in props && g != group ==> g in r && r[g] == props[g]
    ensures r[group].fields.Keys == FieldsAt(props, group).Keys + {key}
    ensures forall k :: k in FieldsAt(props, group) && k != key ==> r[group].fields[k] == FieldsAt(props, group)[k]
  {
    props[group := Obj(FieldsAt(props, group)[key := Num(n)])]
  }

  /** A leaf the form shows a slider for. */
  predicate Offered(props: Props, group: string, key: string)
  {
    group in ValidProps && group in props && props[group].Obj? && key in props[group].fields
  }

  /** The leaf at `group.key`, if there is one. */
  function Leaf(props: Props, group: string, key: string): (r: Option<Value>)
  {
    if key in FieldsAt(props, group) then Some(FieldsAt(props, group)[key]) else None
  }

  /** Reading after an edit: the edited leaf has the new value, every other leaf is as before. */
  lemma EditReadOverWrite(props: Props, group: string, key: string, n: int, g: string, k: string)
    ensures Leaf(Edit(props, group, key, n), g, k) ==
      if g == group && k == key then Some(Num(n)) else Leaf(props, g, k)
  {
  }

  /** Editing a leaf the form offers keeps the shape: no group and no field is added or removed. */
  lemma EditPreservesShape(props: Props, group: string, key: string, n: int)
    requires Offered(props, group, key)
    ensures Edit(props, group, key, n).Keys == props.Keys
    ensures Edit(props, group, key, n)[group].fields.Keys == props[group].fields.Keys
  {
  }

  /** The same edit twice is the edit once; of two edits of one leaf the later wins. */
  lemma EditIdempotent(props: Props, group: string, key: string, n: int, m: int)
    ensures Edit(Edit(props, group, key, n), group, key, n) == Edit(props, group, key, n)
    ensures Edit(Edit(props, group, key, m), group, key, n) == Edit(props, group, key, n)
  {
    var f := FieldsAt(props, group);
    var once := Edit(props, group, key, n);
    FieldsAtWrite(props, group, f[key := Num(n)], group, Num(0));
    assert f[key := Num(n)][key := Num(n)] == f[key := Num(n)];
    assert once[group := once[group]] == once;
    var first := Edit(props, group, key, m);
    FieldsAtWrite(props, group, f[key := Num(m)], group, Num(0));
    assert f[key := Num(m)][key := Num(n)] == f[key := Num(n)];
    assert first[group := Obj(f[key := Num(n)])] == once;
  }

  /** Edits of two different leaves commute. */
  lemma EditsCommute(props: Props, g1: string, k1: string, n1: int, g2: string, k2: string, n2: int)
    requires g1 != g2 || k1 != k2
    ensures Edit(Edit(props, g1, k1, n1), g2, k2, n2) == Edit(Edit(props, g2, k2, n2), g1, k1, n1)
  {
    if g1 == g2 {
      assert FieldsAt(props, g1)[k1 := Num(n1)][k2 := Num(n2)] == FieldsAt(props, g1)[k2 := Num(n2)][k1 := Num(n1)];
    }
  }

  /**
   * An edit in the form reaches the coordinator as UPDATE_PROPS: the
   * session keeps its uuid and holds the edited props, and the same edit
   * sent twice leaves the state it left after the first.
   */
  lemma EditThroughCoordinator(u: string, props: Props, group: string, key: string, n: int)
    ensures Step(Active(u, props), UpdateProps(Edit(props, group, key, n))) == Active(u, Edit(props, group, key, n))
    ensures var s1 := Step(Active(u, props), UpdateProps(Edit(props, group, key, n)));
      Step(s1, UpdateProps(Edit(s1.props, group, key, n))) == s1
  {
    EditIdempotent(props, group, key, n, n);
  }
}
