/**
 * The variable table (`struct VAR` list `vars`, ast.c), as a value: the list
 * of bindings from head to tail. The head is the most recently created
 * binding. These functions are the specification that the methods of
 * `Interpreter.Interpreter` implement on the table they own.
 */
module Variables {
  import opened Wrappers
  import opened Names

  /** The typed slot of a binding: TYPE_INT with `val.intval`, or TYPE_STRING with `val.strval`. */
  datatype Data = IntData(i: int) | StrData(s: string)

  datatype Binding = Binding(name: string, val: Data)

  /**
   * `get_identifier_vals`: the position of the first binding, from the head,
   * whose name `stricmp` finds equal to `name`; None for NULL.
   */
  function Locate(vars: seq<Binding>, name: string): (p: Option<nat>)
    ensures p.Some? ==> p.value < |vars| && SameName(vars[p.value].name, name)
    ensures p.Some? ==> forall j :: 0 <= j < p.value ==> !SameName(vars[j].name, name)
    ensures p.None? <==> forall j :: 0 <= j < |vars| ==> !SameName(vars[j].name, name)
  {
    if |vars| == 0 then None
    else if SameName(vars[0].name, name) then Some(0)
    else match Locate(vars[1..], name)
      case None => None
      case Some(k) => Some(k + 1)
  }

  /** The binding `get_identifier_vals` points at. */
  function Lookup(vars: seq<Binding>, name: string): Option<Binding>
  {
    match Locate(vars, name)
    case None => None
    case Some(k) => Some(vars[k])
  }

  /** At most one binding per case-insensitive name. */
  predicate Unique(vars: seq<Binding>)
  {
    forall i, j :: 0 <= i < j < |vars| ==> !SameName(vars[i].name, vars[j].name)
  }

  /**
   * `assign_variables_core`: when the name is bound, the `memcpy` overwrites
   * type, name and value of that binding and keeps its place in the list;
   * otherwise the new binding is linked in at the head.
   */
  function Assign(vars: seq<Binding>, b: Binding): (r: seq<Binding>)
    ensures Locate(vars, b.name).Some? ==>
      var k := Locate(vars, b.name).value;
      |r| == |vars| && r[k] == b && forall j :: 0 <= j < |vars| && j != k ==> r[j] == vars[j]
    ensures Locate(vars, b.name).None? ==> r == [b] + vars
  {
    match Locate(vars, b.name)
    case Some(k) => vars[k := b]
    case None => [b] + vars
  }

  /** Under `Unique`, any binding with a matching name is the one lookup finds. */
  lemma UniqueLookup(vars: seq<Binding>, k: nat, name: string)
    requires Unique(vars) && k < |vars| && SameName(vars[k].name, name)
    ensures Lookup(vars, name) == Some(vars[k])
  {
    var p := Locate(vars, name).value;
    if p != k {
      if p < k {
        SameNameSymmetric(vars[k].name, name);
        SameNameTransitive(vars[p].name, name, vars[k].name);
      }
    }
  }

  /** Reading a name after an assignment gives the new binding when the names match, and what it gave before otherwise. */
  lemma LookupAfterAssign(vars: seq<Binding>, b: Binding, name: string)
    ensures Lookup(Assign(vars, b), name) == if SameName(b.name, name) then Some(b) else Lookup(vars, name)
  {
    var r := Assign(vars, b);
    match Locate(vars, b.name)
    case None =>
      if SameName(b.name, name) {
        assert r[0] == b;
      } else {
        assert r[1..] == vars;
      }
    case Some(k) =>
      if SameName(b.name, name) {
        forall j | 0 <= j < k
          ensures !SameName(r[j].name, name)
        {
          if SameName(r[j].name, name) {
            SameNameSymmetric(b.name, name);
            SameNameTransitive(r[j].name, name, b.name);
          }
        }
      } else {
        assert !SameName(r[k].name, name);
        if SameName(vars[k].name, name) {
          SameNameSymmetric(vars[k].name, b.name);
          SameNameTransitive(b.name, vars[k].name, name);
        }
        forall j | 0 <= j < |r| && j != k
          ensures SameName(r[j].name, name) == SameName(vars[j].name, name)
        {
        }
      }
  }

  /** Assignment keeps at most one binding per case-insensitive name. */
  lemma AssignPreservesUnique(vars: seq<Binding>, b: Binding)
    requires Unique(vars)
    ensures Unique(Assign(vars, b))
  {
    var r := Assign(vars, b);
    match Locate(vars, b.name)
    case None =>
      forall i, j | 0 <= i < j < |r|
        ensures !SameName(r[i].name, r[j].name)
      {
        if i == 0 {
          assert r[j] == vars[j - 1];
        } else {
          assert r[i] == vars[i - 1] && r[j] == vars[j - 1];
        }
      }
    case Some(k) =>
      forall i, j | 0 <= i < j < |r|
        ensures !SameName(r[i].name, r[j].name)
      {
        if i == k && SameName(b.name, r[j].name) {
          SameNameSymmetric(vars[k].name, b.name);
          SameNameTransitive(vars[k].name, b.name, r[j].name);
        }
      }
  }

  /** The number of bindings grows by one exactly when the name was not yet bound. */
  lemma AssignLength(vars: seq<Binding>, b: Binding)
    ensures |Assign(vars, b)| == if Lookup(vars, b.name).Some? then |vars| else |vars| + 1
  {
  }

  /**
   * `A = B` with the evident intent of `assign_variables_via_identifer`: A
   * receives a copy of B's type and value. None when B is unbound (the source
   * stops with "Identifier B undefiend").
   */
  function AssignFromIdentifier(vars: seq<Binding>, dest: string, src: string): (r: Option<seq<Binding>>)
    ensures r.None? <==> Lookup(vars, src).None?
  {
    match Lookup(vars, src)
    case None => None
    case Some(v) => Some(Assign(vars, Binding(dest, v.val)))
  }

  /** After `A = B`, A holds B's value and every name other than A reads as before, B included. */
  lemma AssignFromIdentifierEffect(vars: seq<Binding>, dest: string, src: string, name: string)
    requires Lookup(vars, src).Some?
    ensures AssignFromIdentifier(vars, dest, src).Some?
    ensures var r := AssignFromIdentifier(vars, dest, src).value;
      Lookup(r, name) == if SameName(dest, name) then Some(Binding(dest, Lookup(vars, src).value.val)) else Lookup(vars, name)
  {
    LookupAfterAssign(vars, Binding(dest, Lookup(vars, src).value.val), name);
  }

  /**
   * `assign_variables_via_identifer` as written: it sets the NAME of B's own
   * binding to A (so B's binding is renamed in place) and then hands that
   * same node to `assign_variables_core`, which looks A up in the renamed list
   * and copies the node onto the first match (a no-op when the first match is
   * the node itself). Kept to exhibit the defect; the interpreter uses
   * `AssignFromIdentifier`.
   */
  function AssignFromIdentifierAsWritten(vars: seq<Binding>, dest: string, src: string): (r: Option<seq<Binding>>)
    ensures r.None? <==> Lookup(vars, src).None?
    ensures r.Some? ==> |r.value| == |vars|
  {
    match Locate(vars, src)
    case None => None
    case Some(k) =>
      var v := Binding(dest, vars[k].val);
      var renamed := vars[k := v];
      assert SameName(renamed[k].name, dest) by {
        SameNameReflexive(dest);
      }
      Some(Assign(renamed, v))
  }

  /** As written, `A = B` leaves B undefined whenever A and B are different names. */
  lemma AsWrittenLosesSource(vars: seq<Binding>, dest: string, src: string)
    requires Unique(vars) && Lookup(vars, src).Some? && !SameName(dest, src)
    ensures AssignFromIdentifierAsWritten(vars, dest, src).Some?
    ensures Lookup(AssignFromIdentifierAsWritten(vars, dest, src).value, src).None?
  {
    var k := Locate(vars, src).value;
    var v := Binding(dest, vars[k].val);
    var renamed := vars[k := v];
    forall j | 0 <= j < |renamed|
      ensures !SameName(renamed[j].name, src)
    {
      if j != k && SameName(vars[j].name, src) {
        if j < k {
          assert false;
        } else {
          SameNameSymmetric(vars[j].name, src);
          SameNameTransitive(vars[k].name, src, vars[j].name);
        }
      }
    }
    LookupAfterAssign(renamed, v, src);
  }

  /** With B ahead of A in the list, as written `A = B` leaves two bindings named A and none named B. */
  lemma AsWrittenDuplicates()
    ensures var vars := [Binding("B", IntData(1)), Binding("A", IntData(2))];
      && Unique(vars)
      && AssignFromIdentifierAsWritten(vars, "A", "B") == Some([Binding("A", IntData(1)), Binding("A", IntData(2))])
      && !Unique(AssignFromIdentifierAsWritten(vars, "A", "B").value)
      && AssignFromIdentifier(vars, "A", "B") == Some([Binding("B", IntData(1)), Binding("A", IntData(1))])
  {
    var vars := [Binding("B", IntData(1)), Binding("A", IntData(2))];
    assert !SameName("B", "A") by {
      assert ToLower("B"[0]) != ToLower("A"[0]);
    }
    assert SameName("A", "A") && SameName("B", "B");
    assert Locate(vars, "B") == Some(0);
    assert vars[1..] == [Binding("A", IntData(2))];
    assert Locate(vars[1..], "A") == Some(0);
    assert Locate(vars, "A") == Some(1);
    var renamed := [Binding("A", IntData(1)), Binding("A", IntData(2))];
    assert vars[0 := Binding("A", IntData(1))] == renamed;
    assert Locate(renamed, "A") == Some(0);
    assert Assign(renamed, Binding("A", IntData(1))) == renamed;
    assert Lookup(vars, "B") == Some(Binding("B", IntData(1)));
    assert Assign(vars, Binding("A", IntData(1))) == [Binding("B", IntData(1)), Binding("A", IntData(1))];
    assert !Unique(renamed) by {
      assert SameName(renamed[0].name, renamed[1].name);
    }
  }
}
