/**
 * The open-items state machine of the accordion component
 * (src/components/ui/accordion.jsx).
 *
 * The accordion holds one JavaScript value saying which items are open: in
 * `multiple` mode an array of item ids, in `single` mode one id or `null`.
 * Clicking an item's header calls `handleValueChange`, which computes the next
 * value purely, stores it when the component is uncontrolled and reports it
 * through `onValueChange`.
 */
module Accordion {
  import opened Wrappers

  /** The `type` prop. */
  datatype Mode = Single | Multiple

  /** The JavaScript values the open-items value can take. */
  datatype OpenValue = Null | Item(id: string) | List(ids: seq<string>)

  /**
   * JavaScript truthiness: `null` and `""` are falsy, every array (even `[]`)
   * is truthy. The category editor defines truthiness again on its own value
   * type: the two components hold different kinds of values, and each model
   * keeps only the values its component can hold.
   */
  predicate Truthy(v: OpenValue)
  {
    match v
    case Null => false
    case Item(id) => id != ""
    case List(_) => true
  }

  /**
   * Item ids as the items carry them: an item without a truthy `value` prop
   * gets a generated id, so every id an item uses is non-empty.
   */
  predicate IsItemId(id: string)
  {
    id != ""
  }

  /** `useState(defaultValue || (type === "multiple" ? [] : null))`. */
  function InitialValue(mode: Mode, defaultValue: Option<OpenValue>): OpenValue
  {
    if defaultValue.Some? && Truthy(defaultValue.value) then defaultValue.value
    else if mode == Multiple then List([])
    else Null
  }

  /** `Array.isArray(v) ? v : []`. */
  function AsList(v: OpenValue): seq<string>
  {
    if v.List? then v.ids else []
  }

  /** `items.filter(item => item !== x)`: every occurrence of `x` removed, the rest in order. */
  function Without(items: seq<string>, x: string): (r: seq<string>)
    ensures x !in r
    ensures |r| <= |items|
    ensures forall y :: y != x ==> multiset(r)[y] == multiset(items)[y]
  {
    if items == [] then []
    else
      assert items == [items[0]] + items[1..];
      if items[0] == x then Without(items[1..], x)
    else [items[0]] + Without(items[1..], x)
  }

  /** The new value `handleValueChange(id)` computes from the current one. */
  function Toggle(mode: Mode, current: OpenValue, id: string): OpenValue
  {
    match mode
    case Multiple =>
      var items := AsList(current);
      if id in items then List(Without(items, id)) else List(items + [id])
    case Single =>
      if current == Item(id) then Null else Item(id)
  }

  /**
   * Whether an item is shown open for a given value, with the value read the
   * way `Toggle` reads it: in multiple mode a value that is not an array opens
   * nothing.
   */
  predicate IsOpen(mode: Mode, v: OpenValue, id: string)
  {
    match mode
    case Multiple => id in AsList(v)
    case Single => v == Item(id)
  }

  /** `s.includes(sub)` on strings: `sub` occurs in `s` as a contiguous block. */
  predicate Contains(s: string, sub: string)
    decreases |s|
  {
    sub <= s || (s != [] && Contains(s[1..], sub))
  }

  /**
   * The open test exactly as the trigger and the content write it:
   * `type === 'multiple' ? (value && value.includes(id)) : value === id`.
   * On a string value in multiple mode, `includes` is a substring test.
   */
  predicate IsOpenAsWritten(mode: Mode, v: OpenValue, id: string)
  {
    match mode
    case Multiple =>
      Truthy(v) &&
      (match v
       case List(ids) => id in ids
       case Item(s) => Contains(s, id)
       case Null => false)
    case Single => v == Item(id)
  }

  predicate NoDuplicates(items: seq<string>)
  {
    forall i, j :: 0 <= i < j < |items| ==> items[i] != items[j]
  }

  // ---------------------------------------------------------------- lemmas

  /** Removing `x` distributes over concatenation: `Without` keeps relative order. */
  lemma {:induction false} WithoutConcat(a: seq<string>, b: seq<string>, x: string)
    ensures Without(a + b, x) == Without(a, x) + Without(b, x)
  {
    if a == [] {
      assert a + b == b;
    } else {
      assert (a + b)[1..] == a[1..] + b;
      WithoutConcat(a[1..], b, x);
    }
  }

  /** Removing an id that does not occur changes nothing. */
  lemma {:induction false} WithoutAbsent(items: seq<string>, x: string)
    requires x !in items
    ensures Without(items, x) == items
  {
    if items != [] {
      WithoutAbsent(items[1..], x);
    }
  }

  /** Every id left after removal was in the list before. */
  lemma {:induction false} WithoutSubset(items: seq<string>, x: string, y: string)
    requires y in Without(items, x)
    ensures y in items && y != x
  {
    if items != [] && y != items[0] {
      WithoutSubset(items[1..], x, y);
    }
  }

  /** A duplicate-free list stays duplicate-free when ids are removed from it. */
  lemma {:induction false} WithoutNoDuplicates(items: seq<string>, x: string)
    requires NoDuplicates(items)
    ensures NoDuplicates(Without(items, x))
  {
    if items != [] {
      assert NoDuplicates(items[1..]) by {
        forall i, j | 0 <= i < j < |items[1..]| ensures items[1..][i] != items[1..][j] {
          assert items[1..][i] == items[i + 1] && items[1..][j] == items[j + 1];
        }
      }
      WithoutNoDuplicates(items[1..], x);
      if items[0] != x {
        var rest := Without(items[1..], x);
        forall k | 0 <= k < |rest| ensures rest[k] != items[0] {
          WithoutSubset(items[1..], x, rest[k]);
        }
      }
    }
  }

  /**
   * Initial state: an item starts open exactly when a truthy `defaultValue`
   * opens it; with a falsy or missing default nothing is open, in either mode.
   */
  lemma InitialOpenItems(mode: Mode, defaultValue: Option<OpenValue>, id: string)
    requires IsItemId(id)
    ensures IsOpen(mode, InitialValue(mode, defaultValue), id) <==>
              defaultValue.Some? && IsOpen(mode, defaultValue.value, id)
  {
  }

  /**
   * Multiple mode: the first toggle of an absent item adds exactly one
   * occurrence of it and leaves every other id's count alone, and the second
   * toggle returns exactly the original list.
   */
  lemma ToggleTwiceRestores(items: seq<string>, id: string)
    requires id !in items
    ensures multiset(Toggle(Multiple, List(items), id).ids) == multiset(items) + multiset{id}
    ensures Toggle(Multiple, Toggle(Multiple, List(items), id), id) == List(items)
  {
    assert id in items + [id];
    WithoutConcat(items, [id], id);
    WithoutAbsent(items, id);
    assert Without([id], id) == [];
  }

  /**
   * Multiple mode, present item: every occurrence is removed, every other id
   * keeps its number of occurrences, and the list that results is the
   * order-preserving `Without`.
   */
  lemma TogglePresentRemoves(current: OpenValue, id: string)
    requires id in AsList(current)
    ensures Toggle(Multiple, current, id).List?
    ensures id !in Toggle(Multiple, current, id).ids
    ensures forall y :: y != id ==>
              multiset(Toggle(Multiple, current, id).ids)[y] == multiset(AsList(current))[y]
  {
  }

  /**
   * Multiple mode: after a toggle the toggled item is open iff it was closed
   * before, and every other item keeps its open status. A non-array current
   * value counts as the empty list.
   */
  lemma {:induction false} ToggleFlipsOnlyTarget(current: OpenValue, id: string, other: string)
    ensures IsOpen(Multiple, Toggle(Multiple, current, id), id) <==> !IsOpen(Multiple, current, id)
    ensures other != id ==>
              (IsOpen(Multiple, Toggle(Multiple, current, id), other) <==> IsOpen(Multiple, current, other))
  {
    var items := AsList(current);
    if id in items && other != id {
      var r := Without(items, id);
      assert multiset(r)[other] == multiset(items)[other];
      assert other in r <==> other in multiset(r);
      assert other in items <==> other in multiset(items);
    }
  }

  /** Multiple mode: a duplicate-free list of open items stays duplicate-free after any toggle. */
  lemma ToggleKeepsNoDuplicates(current: OpenValue, id: string)
    requires NoDuplicates(AsList(current))
    ensures Toggle(Multiple, current, id).List?
    ensures NoDuplicates(Toggle(Multiple, current, id).ids)
  {
    var items := AsList(current);
    if id in items {
      WithoutNoDuplicates(items, id);
    } else {
      var r := items + [id];
      forall i, j | 0 <= i < j < |r| ensures r[i] != r[j] {
        if j == |items| {
          assert r[i] == items[i];
        } else {
          assert r[i] == items[i] && r[j] == items[j];
        }
      }
    }
  }

  /**
   * Single mode: the new value is `null` when the item was the open one and
   * the item otherwise; so the toggled item is open iff it was closed, and
   * every other item is closed afterwards.
   */
  lemma SingleToggle(current: OpenValue, id: string, other: string)
    ensures Toggle(Single, current, id) == (if current == Item(id) then Null else Item(id))
    ensures IsOpen(Single, Toggle(Single, current, id), id) <==> !IsOpen(Single, current, id)
    ensures other != id ==> !IsOpen(Single, Toggle(Single, current, id), other)
  {
  }

  /** Single mode: at most one item is open for any value. */
  lemma SingleAtMostOneOpen(v: OpenValue, a: string, b: string)
    requires IsOpen(Single, v, a) && IsOpen(Single, v, b)
    ensures a == b
  {
  }

  /** Single mode: toggling the open item closes every item. */
  lemma SingleToggleOpenClosesAll(id: string, other: string)
    ensures !IsOpen(Single, Toggle(Single, Item(id), id), other)
  {
  }

  /**
   * The open test as written agrees with `IsOpen` on every value except a
   * non-empty string in multiple mode.
   */
  lemma IsOpenAsWrittenAgrees(mode: Mode, v: OpenValue, id: string)
    requires !(mode == Multiple && v.Item? && v.id != "")
    ensures IsOpenAsWritten(mode, v, id) <==> IsOpen(mode, v, id)
  {
  }

  /**
   * The discrepancy: with `type="multiple"` and `defaultValue="a"`, item "a"
   * is shown open, and after one click on it it is still shown open, because
   * the toggle treats the string as the empty list and appends "a".
   */
  lemma StringValueStaysOpenAfterToggle()
    ensures InitialValue(Multiple, Some(Item("a"))) == Item("a")
    ensures IsOpenAsWritten(Multiple, Item("a"), "a")
    ensures Toggle(Multiple, Item("a"), "a") == List(["a"])
    ensures IsOpenAsWritten(Multiple, Toggle(Multiple, Item("a"), "a"), "a")
  {
    assert "a" <= "a";
  }

  // ------------------------------------------------------------ component

  /** The `Accordion` component: its props and its uncontrolled state. */
  class AccordionRoot {
    const mode: Mode
    /** The `value` prop; `None` when it is `undefined`. */
    const valueProp: Option<OpenValue>
    /** Whether an `onValueChange` callback was supplied. */
    const hasCallback: bool
    /** `internalValue`, written only when the accordion is uncontrolled. */
    var internalValue: OpenValue
    /** The arguments `onValueChange` has been called with, oldest first. */
    var notified: seq<OpenValue>

    constructor (mode: Mode, defaultValue: Option<OpenValue>, valueProp: Option<OpenValue>, hasCallback: bool)
      ensures this.mode == mode && this.valueProp == valueProp && this.hasCallback == hasCallback
      ensures internalValue == InitialValue(mode, defaultValue)
      ensures notified == []
    {
      this.mode := mode;
      this.valueProp := valueProp;
      this.hasCallback := hasCallback;
      internalValue := InitialValue(mode, defaultValue);
      notified := [];
    }

    /** `value !== undefined`. */
    predicate IsControlled()
    {
      valueProp.Some?
    }

    /** `isControlled ? value : internalValue`. */
    function CurrentValue(): OpenValue
      reads this
    {
      if IsControlled() then valueProp.value else internalValue
    }

    /** Whether the item with this id is shown open, by the test the trigger and the content apply. */
    predicate IsItemOpen(id: string)
      reads this
    {
      IsOpenAsWritten(mode, CurrentValue(), id)
    }

    /** The current value is one the as-written open test reads the way the toggle does. */
    predicate ReadsLikeToggle()
      reads this
    {
      !(mode == Multiple && CurrentValue().Item? && CurrentValue().id != "")
    }

    /**
     * `handleValueChange(id)`: an uncontrolled accordion stores the toggled
     * value; a controlled one never writes its internal state, so what it
     * shows stays the `value` prop. The callback, when supplied, is called
     * exactly once with the toggled value.
     */
    method HandleValueChange(id: string)
      modifies this
      ensures IsControlled() ==> internalValue == old(internalValue) && CurrentValue() == valueProp.value
      ensures !IsControlled() ==> internalValue == Toggle(mode, old(CurrentValue()), id)
      ensures notified == old(notified) + (if hasCallback then [Toggle(mode, old(CurrentValue()), id)] else [])
      ensures !IsControlled() && hasCallback ==> notified[|notified| - 1] == CurrentValue()
      ensures !IsControlled() && old(ReadsLikeToggle()) ==> ReadsLikeToggle()
      ensures !IsControlled() && old(ReadsLikeToggle()) ==> (IsItemOpen(id) <==> !old(IsItemOpen(id)))
      ensures !IsControlled() && old(ReadsLikeToggle()) && mode == Multiple ==>
                forall other :: other != id ==> (IsItemOpen(other) <==> old(IsItemOpen(other)))
    {
      ghost var before := CurrentValue();
      var newValue := Toggle(mode, CurrentValue(), id);
      if !IsControlled() {
        internalValue := newValue;
      }
      if hasCallback {
        notified := notified + [newValue];
      }
      if !IsControlled() && !(mode == Multiple && before.Item? && before.id != "") {
        IsOpenAsWrittenAgrees(mode, before, id);
        IsOpenAsWrittenAgrees(mode, newValue, id);
        ToggleFlipsOnlyTarget(before, id, id);
        SingleToggle(before, id, id);
        if mode == Multiple {
          forall other | other != id
            ensures IsItemOpen(other) <==> IsOpenAsWritten(mode, before, other)
          {
            IsOpenAsWrittenAgrees(mode, before, other);
            IsOpenAsWrittenAgrees(mode, newValue, other);
            ToggleFlipsOnlyTarget(before, id, other);
          }
        }
      }
    }
  }
}
