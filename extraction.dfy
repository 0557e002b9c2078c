/**
 * `find_balance_in_obj`: the depth-first scan of a parsed JSON document for the
 * first value stored under a balance-naming key that `float()` accepts.
 */
module Extraction {
  import opened Wrappers
  import opened JsonValues

  /** The test a dict key must pass to name a balance; the watcher uses `Keywords.IsBalanceKey`. */
  type KeyTest = string -> bool

  /** A dict entry that wins at its own level: its key names a balance and its value parses. */
  predicate Qualifies(f: Field, isKey: KeyTest, parse: FloatParser)
  {
    isKey(f.key) && TryParseFloat(f.value, parse).Some?
  }

  /** `fields[i]` qualifies and no entry before it does. */
  predicate FirstQualifying(fields: seq<Field>, isKey: KeyTest, parse: FloatParser, i: int)
  {
    0 <= i < |fields| && Qualifies(fields[i], isKey, parse) &&
    forall k :: 0 <= k < i ==> !Qualifies(fields[k], isKey, parse)
  }

  /** The first loop over `obj.items()`: the parse of the first qualifying entry. */
  function DirectBalance(fields: seq<Field>, isKey: KeyTest, parse: FloatParser): (r: Option<real>)
    ensures r.Some? ==> exists i :: 0 <= i < |fields| && Qualifies(fields[i], isKey, parse) && r == TryParseFloat(fields[i].value, parse)
  {
    if fields == [] then None
    else if Qualifies(fields[0], isKey, parse) then TryParseFloat(fields[0].value, parse)
    else
      var r := DirectBalance(fields[1..], isKey, parse);
      assert forall k :: 1 <= k < |fields| ==> fields[1..][k - 1] == fields[k];
      r
  }

  /**
   * The first loop finds nothing exactly when no entry of the level qualifies,
   * and otherwise yields the parse of the first entry that does.
   */
  lemma {:induction false} DirectBalanceFacts(fields: seq<Field>, isKey: KeyTest, parse: FloatParser)
    ensures DirectBalance(fields, isKey, parse).None? <==> forall k :: 0 <= k < |fields| ==> !Qualifies(fields[k], isKey, parse)
    ensures DirectBalance(fields, isKey, parse).Some? ==>
      exists i :: FirstQualifying(fields, isKey, parse, i) && DirectBalance(fields, isKey, parse) == TryParseFloat(fields[i].value, parse)
  {
    if fields == [] {
    } else if Qualifies(fields[0], isKey, parse) {
      assert FirstQualifying(fields, isKey, parse, 0);
    } else {
      var rest := fields[1..];
      DirectBalanceFacts(rest, isKey, parse);
      assert forall k :: 1 <= k < |fields| ==> fields[k] == rest[k - 1];
      if DirectBalance(rest, isKey, parse).Some? {
        var i :| FirstQualifying(rest, isKey, parse, i) && DirectBalance(rest, isKey, parse) == TryParseFloat(rest[i].value, parse);
        forall k | 0 <= k < i + 1
          ensures !Qualifies(fields[k], isKey, parse)
        {
          if k > 0 {
            assert fields[k] == rest[k - 1];
          }
        }
        assert fields[i + 1] == rest[i];
      }
    }
  }

  /**
   * The balance `v` is stored somewhere in `j`: under a balance-naming key of
   * some dict nested in `j`, as a value that parses to `v`.
   */
  ghost predicate Occurs(j: Json, v: real, isKey: KeyTest, parse: FloatParser)
    decreases j
  {
    match j
    case JObject(fields) =>
      exists i :: 0 <= i < |fields| &&
        ((isKey(fields[i].key) && TryParseFloat(fields[i].value, parse) == Some(v)) ||
         Occurs(fields[i].value, v, isKey, parse))
    case JArray(items) => exists i :: 0 <= i < |items| && Occurs(items[i], v, isKey, parse)
    case _ => false
  }

  /**
   * `find_balance_in_obj(obj)`.  At a dict the entries of that level come first;
   * only when none qualifies are its values scanned, in order.  Lists are scanned
   * item by item; anything else yields `None`.  Whatever is found is stored in
   * the document under a balance-naming key.
   */
  function FindBalance(j: Json, isKey: KeyTest, parse: FloatParser): (r: Option<real>)
    ensures r.Some? ==> Occurs(j, r.value, isKey, parse)
    ensures !(j.JObject? || j.JArray?) ==> r.None?
    decreases j
  {
    match j
    case JObject(fields) =>
      (match DirectBalance(fields, isKey, parse)
       case Some(v) => Some(v)
       case None => FindInValues(fields, isKey, parse))
    case JArray(items) => FindInItems(items, isKey, parse)
    case _ => None
  }

  /** The second loop over `obj.values()`: the first value in which something is found. */
  function FindInValues(fields: seq<Field>, isKey: KeyTest, parse: FloatParser): (r: Option<real>)
    ensures r.Some? ==> Occurs(JObject(fields), r.value, isKey, parse)
    decreases fields
  {
    if fields == [] then None
    else
      match FindBalance(fields[0].value, isKey, parse)
      case Some(v) => Some(v)
      case None =>
        var r := FindInValues(fields[1..], isKey, parse);
        assert forall k :: 1 <= k < |fields| ==> fields[k] == fields[1..][k - 1];
        r
  }

  /** The loop over a list: the first item in which something is found. */
  function FindInItems(items: seq<Json>, isKey: KeyTest, parse: FloatParser): (r: Option<real>)
    ensures r.Some? ==> Occurs(JArray(items), r.value, isKey, parse)
    decreases items
  {
    if items == [] then None
    else
      match FindBalance(items[0], isKey, parse)
      case Some(v) => Some(v)
      case None =>
        var r := FindInItems(items[1..], isKey, parse);
        assert forall k :: 1 <= k < |items| ==> items[k] == items[1..][k - 1];
        r
  }

  /** Completeness: a document holding a parseable balance under a balance key yields a result. */
  lemma {:induction false} FindBalanceComplete(j: Json, v: real, isKey: KeyTest, parse: FloatParser)
    requires Occurs(j, v, isKey, parse)
    ensures FindBalance(j, isKey, parse).Some?
    decreases j, 1
  {
    match j
    case JObject(fields) =>
      DirectBalanceFacts(fields, isKey, parse);
      if DirectBalance(fields, isKey, parse).None? {
        var i :| 0 <= i < |fields| &&
          ((isKey(fields[i].key) && TryParseFloat(fields[i].value, parse) == Some(v)) ||
           Occurs(fields[i].value, v, isKey, parse));
        assert !Qualifies(fields[i], isKey, parse);
        FindInValuesComplete(fields, i, v, isKey, parse);
      }
    case JArray(items) =>
      var i :| 0 <= i < |items| && Occurs(items[i], v, isKey, parse);
      FindInItemsComplete(items, i, v, isKey, parse);
  }

  lemma {:induction false} FindInValuesComplete(fields: seq<Field>, i: int, v: real, isKey: KeyTest, parse: FloatParser)
    requires 0 <= i < |fields| && Occurs(fields[i].value, v, isKey, parse)
    ensures FindInValues(fields, isKey, parse).Some?
    decreases fields, 0
  {
    ValueStep(fields, isKey, parse);
    if FindBalance(fields[0].value, isKey, parse).None? {
      if i == 0 {
        FindBalanceComplete(fields[0].value, v, isKey, parse);
      } else {
        assert fields[i] == fields[1..][i - 1];
        FindInValuesComplete(fields[1..], i - 1, v, isKey, parse);
      }
    }
  }

  lemma {:induction false} FindInItemsComplete(items: seq<Json>, i: int, v: real, isKey: KeyTest, parse: FloatParser)
    requires 0 <= i < |items| && Occurs(items[i], v, isKey, parse)
    ensures FindInItems(items, isKey, parse).Some?
    decreases items, 0
  {
    FirstItemStep(items, isKey, parse);
    if FindBalance(items[0], isKey, parse).None? {
      if i == 0 {
        FindBalanceComplete(items[0], v, isKey, parse);
      } else {
        assert items[i] == items[1..][i - 1];
        FindInItemsComplete(items[1..], i - 1, v, isKey, parse);
      }
    }
  }

  /**
   * `None` exactly when no balance-naming key anywhere in the document holds a
   * parseable value; otherwise the result is one of the stored balances.
   */
  lemma FindBalanceNoneIff(j: Json, isKey: KeyTest, parse: FloatParser)
    ensures FindBalance(j, isKey, parse).None? <==> forall v :: !Occurs(j, v, isKey, parse)
    ensures FindBalance(j, isKey, parse).Some? ==> Occurs(j, FindBalance(j, isKey, parse).value, isKey, parse)
  {
    if FindBalance(j, isKey, parse).Some? {
      assert Occurs(j, FindBalance(j, isKey, parse).value, isKey, parse);
    } else {
      forall v ensures !Occurs(j, v, isKey, parse) {
        if Occurs(j, v, isKey, parse) {
          FindBalanceComplete(j, v, isKey, parse);
        }
      }
    }
  }

  /**
   * Priority at a dict: the first qualifying entry of that level wins, whatever
   * the nested values hold.
   */
  lemma {:induction false} LevelKeyWins(fields: seq<Field>, i: int, isKey: KeyTest, parse: FloatParser)
    requires FirstQualifying(fields, isKey, parse, i)
    ensures FindBalance(JObject(fields), isKey, parse) == TryParseFloat(fields[i].value, parse)
  {
    var r := DirectBalance(fields, isKey, parse);
    DirectBalanceFacts(fields, isKey, parse);
    assert r.Some?;
    var i' :| FirstQualifying(fields, isKey, parse, i') && r == TryParseFloat(fields[i'].value, parse);
    assert i' == i;
  }

  /**
   * Descent order at a dict: with no qualifying entry at that level, the result
   * is that of the first value in which something is found.
   */
  lemma {:induction false} ValuesScannedInOrder(fields: seq<Field>, i: int, isKey: KeyTest, parse: FloatParser)
    requires forall k :: 0 <= k < |fields| ==> !Qualifies(fields[k], isKey, parse)
    requires 0 <= i < |fields| && FindBalance(fields[i].value, isKey, parse).Some?
    requires forall k :: 0 <= k < i ==> FindBalance(fields[k].value, isKey, parse).None?
    ensures FindBalance(JObject(fields), isKey, parse) == FindBalance(fields[i].value, isKey, parse)
  {
    DirectBalanceFacts(fields, isKey, parse);
    FirstValueWins(fields, i, isKey, parse);
  }

  lemma {:induction false} FirstValueWins(fields: seq<Field>, i: int, isKey: KeyTest, parse: FloatParser)
    requires 0 <= i < |fields| && FindBalance(fields[i].value, isKey, parse).Some?
    requires forall k :: 0 <= k < i ==> FindBalance(fields[k].value, isKey, parse).None?
    ensures FindInValues(fields, isKey, parse) == FindBalance(fields[i].value, isKey, parse)
  {
    ValueStep(fields, isKey, parse);
    if i > 0 {
      NoValueBeforeShift(fields, i, isKey, parse);
      FirstValueWins(fields[1..], i - 1, isKey, parse);
    }
  }

  /** Dropping the first entry keeps "nothing is found in a value before `i`" true, one place earlier. */
  lemma NoValueBeforeShift(fields: seq<Field>, i: int, isKey: KeyTest, parse: FloatParser)
    requires 0 < i < |fields|
    requires forall k :: 0 <= k < i ==> FindBalance(fields[k].value, isKey, parse).None?
    ensures fields[1..][i - 1] == fields[i]
    ensures forall k :: 0 <= k < i - 1 ==> FindBalance(fields[1..][k].value, isKey, parse).None?
  {
    forall k | 0 <= k < i - 1 ensures FindBalance(fields[1..][k].value, isKey, parse).None? {
      assert fields[1..][k] == fields[k + 1];
    }
  }

  /** One step of the scan over a dict's values: the first value's result, or the rest's when it has none. */
  lemma ValueStep(fields: seq<Field>, isKey: KeyTest, parse: FloatParser)
    requires fields != []
    ensures FindBalance(fields[0].value, isKey, parse).Some? ==> FindInValues(fields, isKey, parse) == FindBalance(fields[0].value, isKey, parse)
    ensures FindBalance(fields[0].value, isKey, parse).None? ==> FindInValues(fields, isKey, parse) == FindInValues(fields[1..], isKey, parse)
  {
  }

  /** Lists: the result is that of the first item in which something is found. */
  lemma {:induction false} ItemsScannedInOrder(items: seq<Json>, i: int, isKey: KeyTest, parse: FloatParser)
    requires 0 <= i < |items| && FindBalance(items[i], isKey, parse).Some?
    requires forall k :: 0 <= k < i ==> FindBalance(items[k], isKey, parse).None?
    ensures FindBalance(JArray(items), isKey, parse) == FindBalance(items[i], isKey, parse)
  {
    FirstItemStep(items, isKey, parse);
    if i > 0 {
      NothingBeforeShift(items, i, isKey, parse);
      ItemsScannedInOrder(items[1..], i - 1, isKey, parse);
      FirstItemStep(items[1..], isKey, parse);
    }
  }

  /** Dropping the first item keeps "nothing is found before `i`" true, one place earlier. */
  lemma NothingBeforeShift(items: seq<Json>, i: int, isKey: KeyTest, parse: FloatParser)
    requires 0 < i < |items|
    requires forall k :: 0 <= k < i ==> FindBalance(items[k], isKey, parse).None?
    ensures items[1..][i - 1] == items[i]
    ensures forall k :: 0 <= k < i - 1 ==> FindBalance(items[1..][k], isKey, parse).None?
  {
    forall k | 0 <= k < i - 1 ensures FindBalance(items[1..][k], isKey, parse).None? {
      assert items[1..][k] == items[k + 1];
    }
  }

  /** One step of the scan over a list: the first item's result, or the rest's when it has none. */
  lemma FirstItemStep(items: seq<Json>, isKey: KeyTest, parse: FloatParser)
    requires items != []
    ensures FindBalance(JArray(items), isKey, parse) == FindInItems(items, isKey, parse)
    ensures FindBalance(items[0], isKey, parse).Some? ==> FindInItems(items, isKey, parse) == FindBalance(items[0], isKey, parse)
    ensures FindBalance(items[0], isKey, parse).None? ==> FindInItems(items, isKey, parse) == FindInItems(items[1..], isKey, parse)
  {
  }
}
