/** Registration entries, node aliases and the keys they are compared by
    (internal/reconcile/diff.go, internal/reconcile/wanted.go). */
module Entries {
  import opened Strings
  import opened Sorting

  /** One registration entry. The server chooses the ID; it carries no meaning. */
  datatype Entry = Entry(id: nat, parentID: string, spiffeID: string, selectors: seq<string>, isDefault: bool)

  datatype Alias = Alias(spiffeID: string, selectors: seq<string>)

  datatype Key = Key(spiffeID: string, sel: string)

  function SelectorKey(sel: seq<string>): string {
    Join(Sort(sel, Le), NUL)
  }

  function EntryKey(e: Entry): Key {
    Key(e.spiffeID, SelectorKey(e.selectors))
  }

  function AliasKey(a: Alias): Key {
    Key(a.spiffeID, SelectorKey(a.selectors))
  }

  /** Selectors that the separator of SelectorKey cannot confuse. */
  predicate Joinable(sel: seq<string>) {
    forall s :: s in sel ==> s != "" && NUL !in s
  }

  lemma LePreorder()
    ensures TotalPreorder(Le)
  {
    forall a, b ensures Le(a, b) || Le(b, a) { LeTotal(a, b); }
    forall a, b, c ensures Le(a, b) && Le(b, c) ==> Le(a, c) {
      if Le(a, b) && Le(b, c) { LeTransitive(a, b, c); }
    }
  }

  lemma StringsSortUnique(a: seq<string>, b: seq<string>)
    requires multiset(a) == multiset(b)
    ensures Sort(a, Le) == Sort(b, Le)
  {
    hide Sort, Insert;
    LePreorder();
    SortSorted(a, Le);
    SortSorted(b, Le);
    forall x, y ensures Le(x, y) && Le(y, x) ==> x == y {
      if Le(x, y) && Le(y, x) { LeAntisymmetric(x, y); }
    }
    SortedUnique(Sort(a, Le), Sort(b, Le), Le);
  }

  lemma SortedParts(sel: seq<string>)
    requires Joinable(sel)
    ensures PartsOf(Sort(sel, Le), NUL)
  {
    hide Sort, Le;
    SameElements(sel, Sort(sel, Le));
    assert forall i :: 0 <= i < |Sort(sel, Le)| ==> Sort(sel, Le)[i] in Sort(sel, Le);
  }

  /** The joined string stands for the selectors themselves: it forgets their
      order and nothing else. */
  lemma SelectorKeyMeaning(a: seq<string>, b: seq<string>)
    requires Joinable(a) && Joinable(b)
    ensures SelectorKey(a) == SelectorKey(b) <==> multiset(a) == multiset(b)
  {
    hide Sort, Join, Le;
    if multiset(a) == multiset(b) {
      StringsSortUnique(a, b);
    }
    if SelectorKey(a) == SelectorKey(b) {
      SortedParts(a);
      SortedParts(b);
      JoinInjective(Sort(a, Le), Sort(b, Le), NUL);
    }
  }
}
