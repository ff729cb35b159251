/**
 * The WhatsApp fan-out (`expandJsonEvents` in firehoseTransformer.mjs): one
 * webhook entry holding several changes, each with arrays of statuses and
 * messages, becomes one unit per status and one unit per message. Every
 * unit carries the base properties of the message and an entry with a
 * single change whose array holds that one element.
 */
module Expand {
  import opened JsValue

  /** The base properties copied into every unit, in this order. */
  const BaseKeys: seq<string> := ["context", "aws_account_id", "message_timestamp", "whatsAppWebhookEntry"]

  /** `baseProperties`: the four properties read off the message (undefined
      when missing). */
  function BaseFields(jsonData: Value): (fs: seq<(string, Value)>)
    requires !IsNullish(jsonData)
    ensures KeysOf(fs) == BaseKeys
    ensures forall i :: 0 <= i < 4 ==> fs[i].1 == Get(jsonData, BaseKeys[i]).value
  {
    seq(4, i requires 0 <= i < 4 => (BaseKeys[i], Get(jsonData, BaseKeys[i]).value))
  }

  /** `change.value && change.value[name] && Array.isArray(change.value[name])`:
      the elements to fan out, or none. `value` is not null or undefined
      once it is truthy, so the reads cannot throw. */
  function ItemsOf(value: Value, name: string): (xs: seq<Value>)
    ensures !Truthy(value) ==> xs == []
  {
    if Truthy(value) && Truthy(Get(value, name).value) && Get(value, name).value.Arr?
    then Get(value, name).value.items
    else []
  }

  /** One unit: `{...baseProperties, parsedWhatsAppWebhookEntry: {changes:
      [{field, value: {metadata, <name>: [item], messaging_product}}], id}}`. */
  function Unit(base: seq<(string, Value)>, id: Value, change: Value, name: string, item: Value): Value
    requires !IsNullish(change)
  {
    var value := Get(change, "value").value;
    var inner := Obj([("metadata", OptGet(value, "metadata")),
                      (name, Arr([item])),
                      ("messaging_product", OptGet(value, "messaging_product"))]);
    Obj(base + [("parsedWhatsAppWebhookEntry",
                 Obj([("changes", Arr([Obj([("field", Get(change, "field").value), ("value", inner)])])),
                      ("id", id)]))])
  }

  /** One unit per element of `xs`, in order (`xs.forEach(x => push(...))`). */
  function Units(base: seq<(string, Value)>, id: Value, change: Value, name: string, xs: seq<Value>): (us: seq<Value>)
    requires !IsNullish(change)
    ensures |us| == |xs|
  {
    if xs == [] then []
    else Units(base, id, change, name, xs[..|xs| - 1]) + [Unit(base, id, change, name, xs[|xs| - 1])]
  }

  lemma {:induction false} UnitsIndex(base: seq<(string, Value)>, id: Value, change: Value, name: string, xs: seq<Value>, k: nat)
    requires !IsNullish(change) && k < |xs|
    ensures Units(base, id, change, name, xs)[k] == Unit(base, id, change, name, xs[k])
  {
    if k < |xs| - 1 {
      UnitsIndex(base, id, change, name, xs[..|xs| - 1], k);
    }
  }

  /** `xs.forEach(x => expandedEvents.push(<unit of x>))`. */
  method PushUnits(expanded: seq<Value>, base: seq<(string, Value)>, id: Value, change: Value, name: string, xs: seq<Value>)
    returns (r: seq<Value>)
    requires !IsNullish(change)
    ensures r == expanded + Units(base, id, change, name, xs)
  {
    r := expanded;
    for j := 0 to |xs|
      invariant r == expanded + Units(base, id, change, name, xs[..j])
    {
      assert xs[..j + 1][..j] == xs[..j];
      var u := Unit(base, id, change, name, xs[j]);
      assert Units(base, id, change, name, xs[..j + 1]) == Units(base, id, change, name, xs[..j]) + [u];
      ConcatAssoc(expanded, Units(base, id, change, name, xs[..j]), [u]);
      r := r + [u];
    }
    assert xs[..|xs|] == xs;
  }

  /** The units of one change: statuses first, then messages. Reading
      `change.value` throws when the change is null or undefined. */
  function ChangeUnits(base: seq<(string, Value)>, id: Value, change: Value): Completion<seq<Value>>
  {
    if IsNullish(change) then Throw
    else
      var value := Get(change, "value").value;
      var statuses := ItemsOf(value, "statuses");
      var messages := ItemsOf(value, "messages");
      Normal(Units(base, id, change, "statuses", statuses) + Units(base, id, change, "messages", messages))
  }

  /** The units of a list of changes, in order; the first change that
      throws aborts the whole expansion. */
  function ExpandChanges(base: seq<(string, Value)>, id: Value, cs: seq<Value>): Completion<seq<Value>>
  {
    if cs == [] then Normal([])
    else
      match ExpandChanges(base, id, cs[..|cs| - 1])
      case Throw => Throw
      case Normal(us) =>
        match ChangeUnits(base, id, cs[|cs| - 1])
        case Throw => Throw
        case Normal(vs) => Normal(us + vs)
  }

  /** `jsonData.parsedWhatsAppWebhookEntry`. */
  function Entry(jsonData: Value): Value
    requires !IsNullish(jsonData)
  {
    Get(jsonData, "parsedWhatsAppWebhookEntry").value
  }

  /** `expandJsonEvents(jsonData)`: no units unless the entry and its
      `changes` are truthy; `changes.forEach` throws unless `changes` is an
      array. */
  function ExpandSpec(jsonData: Value): (r: Completion<seq<Value>>)
    requires !IsNullish(jsonData)
    ensures r.Normal? && r.value != [] ==> Truthy(Entry(jsonData)) && OptGet(Entry(jsonData), "changes").Arr?
  {
    var entry := Entry(jsonData);
    if !Truthy(entry) then Normal([])
    else
      var changes := Get(entry, "changes").value;
      if !Truthy(changes) then Normal([])
      else if !changes.Arr? then Throw
      else ExpandChanges(BaseFields(jsonData), Get(entry, "id").value, changes.items)
  }

  /** `expandJsonEvents`: two `forEach` loops inside a `forEach`, pushing each
      unit onto the result. */
  method ExpandJsonEvents(jsonData: Value) returns (r: Completion<seq<Value>>)
    requires !IsNullish(jsonData)
    ensures r == ExpandSpec(jsonData)
  {
    var base := BaseFields(jsonData);
    var entry := Entry(jsonData);
    if !Truthy(entry) {
      return Normal([]);
    }
    var changes := Get(entry, "changes").value;
    if !Truthy(changes) {
      return Normal([]);
    }
    if !changes.Arr? {
      return Throw;
    }
    r := ExpandEach(base, Get(entry, "id").value, changes.items);
  }

  /** `changes.forEach(change => …)`: the units of each change in turn. */
  method ExpandEach(base: seq<(string, Value)>, id: Value, cs: seq<Value>) returns (r: Completion<seq<Value>>)
    ensures r == ExpandChanges(base, id, cs)
  {
    var expanded: seq<Value> := [];
    for i := 0 to |cs|
      invariant ExpandChanges(base, id, cs[..i]) == Normal(expanded)
    {
      var change := cs[i];
      if IsNullish(change) {
        NullChangeThrows(base, id, cs, i);
        return Throw;
      }
      var value := Get(change, "value").value;
      ghost var before := expanded;
      expanded := PushUnits(expanded, base, id, change, "statuses", ItemsOf(value, "statuses"));
      expanded := PushUnits(expanded, base, id, change, "messages", ItemsOf(value, "messages"));
      ExpandChangesStep(base, id, cs, i, before, expanded);
    }
    assert cs[..|cs|] == cs;
    r := Normal(expanded);
  }

  lemma ConcatAssoc<T>(a: seq<T>, b: seq<T>, c: seq<T>)
    ensures (a + b) + c == a + (b + c)
  {
  }

  lemma ExpandChangesStep(base: seq<(string, Value)>, id: Value, cs: seq<Value>, i: nat, before: seq<Value>, after: seq<Value>)
    requires i < |cs| && !IsNullish(cs[i])
    requires ExpandChanges(base, id, cs[..i]) == Normal(before)
    requires var value := Get(cs[i], "value").value;
      after == before + Units(base, id, cs[i], "statuses", ItemsOf(value, "statuses"))
                      + Units(base, id, cs[i], "messages", ItemsOf(value, "messages"))
    ensures ExpandChanges(base, id, cs[..i + 1]) == Normal(after)
  {
    var value := Get(cs[i], "value").value;
    var us1 := Units(base, id, cs[i], "statuses", ItemsOf(value, "statuses"));
    var us2 := Units(base, id, cs[i], "messages", ItemsOf(value, "messages"));
    assert cs[..i + 1][..i] == cs[..i];
    assert cs[..i + 1][i] == cs[i];
    assert ChangeUnits(base, id, cs[i]) == Normal(us1 + us2);
    ConcatAssoc(before, us1, us2);
  }

  /* ---------------- properties of the fan-out ---------------- */

  /** The element a unit carries, whether it is a message, and the change
      it came from. */
  datatype Carried = Carried(isMessage: bool, item: Value, change: Value)

  /** The elements `xs` of `change`, each tagged as a status or a message. */
  function Tagged(isMessage: bool, change: Value, xs: seq<Value>): (ts: seq<Carried>)
    ensures |ts| == |xs|
  {
    if xs == [] then [] else Tagged(isMessage, change, xs[..|xs| - 1]) + [Carried(isMessage, xs[|xs| - 1], change)]
  }

  lemma {:induction false} TaggedIndex(isMessage: bool, change: Value, xs: seq<Value>, k: nat)
    requires k < |xs|
    ensures Tagged(isMessage, change, xs)[k] == Carried(isMessage, xs[k], change)
  {
    if k < |xs| - 1 {
      TaggedIndex(isMessage, change, xs[..|xs| - 1], k);
    }
  }

  /** The elements carried by the units of a list of changes, in order:
      per change, its statuses and then its messages. */
  function AllItems(cs: seq<Value>): seq<Carried>
  {
    if cs == [] then []
    else
      var change := cs[|cs| - 1];
      var value := if IsNullish(change) then Undefined else Get(change, "value").value;
      AllItems(cs[..|cs| - 1]) + Tagged(false, change, ItemsOf(value, "statuses")) + Tagged(true, change, ItemsOf(value, "messages"))
  }

  /** The shape of a unit: the four base properties with the message's
      values, then `parsedWhatsAppWebhookEntry` holding one change (the
      `field` of the change the element came from, and a `value`) whose
      `value` holds that change's `metadata`, a `statuses` (or `messages`)
      array with exactly the carried element, and that change's
      `messaging_product`; and then the entry's `id`. */
  predicate UnitShape(u: Value, base: seq<(string, Value)>, id: Value, c: Carried)
  {
    && u.Obj? && |u.fields| == 5 && u.fields[..4] == base
    && u.fields[4].0 == "parsedWhatsAppWebhookEntry"
    && var e := u.fields[4].1;
       && e.Obj? && |e.fields| == 2
       && e.fields[0].0 == "changes" && e.fields[1] == ("id", id)
       && e.fields[0].1.Arr? && |e.fields[0].1.items| == 1
       && var ch := e.fields[0].1.items[0];
          && ch.Obj? && |ch.fields| == 2 && ch.fields[0] == ("field", OptGet(c.change, "field"))
          && ch.fields[1].0 == "value"
          && var v := ch.fields[1].1;
             var value := OptGet(c.change, "value");
             && v.Obj? && |v.fields| == 3
             && v.fields[0] == ("metadata", OptGet(value, "metadata"))
             && v.fields[2] == ("messaging_product", OptGet(value, "messaging_product"))
             && v.fields[1] == (if c.isMessage then "messages" else "statuses", Arr([c.item]))
  }

  /** Every unit in `us` has the shape of the element at the same place. */
  predicate Shaped(us: seq<Value>, base: seq<(string, Value)>, id: Value, items: seq<Carried>)
  {
    |us| == |items| && forall i :: 0 <= i < |us| ==> UnitShape(us[i], base, id, items[i])
  }

  lemma ShapedConcat(us: seq<Value>, vs: seq<Value>, base: seq<(string, Value)>, id: Value, xs: seq<Carried>, ys: seq<Carried>)
    requires Shaped(us, base, id, xs) && Shaped(vs, base, id, ys)
    ensures Shaped(us + vs, base, id, xs + ys)
  {
    forall i | 0 <= i < |us + vs|
      ensures UnitShape((us + vs)[i], base, id, (xs + ys)[i])
    {
      if i >= |us| {
        assert (us + vs)[i] == vs[i - |us|] && (xs + ys)[i] == ys[i - |us|];
      }
    }
  }

  lemma UnitHasShape(base: seq<(string, Value)>, id: Value, change: Value, isMessage: bool, item: Value)
    requires |base| == 4 && !IsNullish(change)
    ensures UnitShape(Unit(base, id, change, if isMessage then "messages" else "statuses", item), base, id, Carried(isMessage, item, change))
  {
    var u := Unit(base, id, change, if isMessage then "messages" else "statuses", item);
    assert u.fields[..4] == base;
  }

  lemma UnitsShaped(base: seq<(string, Value)>, id: Value, change: Value, isMessage: bool, xs: seq<Value>)
    requires |base| == 4 && !IsNullish(change)
    ensures Shaped(Units(base, id, change, if isMessage then "messages" else "statuses", xs), base, id, Tagged(isMessage, change, xs))
  {
    var name := if isMessage then "messages" else "statuses";
    forall k | 0 <= k < |xs|
      ensures UnitShape(Units(base, id, change, name, xs)[k], base, id, Tagged(isMessage, change, xs)[k])
    {
      UnitsIndex(base, id, change, name, xs, k);
      TaggedIndex(isMessage, change, xs, k);
      UnitHasShape(base, id, change, isMessage, xs[k]);
    }
  }

  /** Each unit of the fan-out has the shape above, and the units carry
      exactly the statuses and messages of the changes, one each, in
      change order with statuses before messages. */
  lemma {:induction false} ExpandChangesShape(base: seq<(string, Value)>, id: Value, cs: seq<Value>)
    requires |base| == 4
    requires ExpandChanges(base, id, cs).Normal?
    ensures Shaped(ExpandChanges(base, id, cs).value, base, id, AllItems(cs))
  {
    if cs != [] {
      var init := cs[..|cs| - 1];
      var change := cs[|cs| - 1];
      ExpandChangesShape(base, id, init);
      var value := Get(change, "value").value;
      var statuses := ItemsOf(value, "statuses");
      var messages := ItemsOf(value, "messages");
      UnitsShaped(base, id, change, false, statuses);
      UnitsShaped(base, id, change, true, messages);
      ShapedConcat(ExpandChanges(base, id, init).value, Units(base, id, change, "statuses", statuses),
                   base, id, AllItems(init), Tagged(false, change, statuses));
      ShapedConcat(ExpandChanges(base, id, init).value + Units(base, id, change, "statuses", statuses),
                   Units(base, id, change, "messages", messages),
                   base, id, AllItems(init) + Tagged(false, change, statuses), Tagged(true, change, messages));
      ConcatAssoc(ExpandChanges(base, id, init).value, Units(base, id, change, "statuses", statuses),
                  Units(base, id, change, "messages", messages));
    }
  }

  /** The number of units is the total number of statuses and messages. */
  function CountItems(cs: seq<Value>): nat
  {
    if cs == [] then 0
    else
      var change := cs[|cs| - 1];
      var value := if IsNullish(change) then Undefined else Get(change, "value").value;
      CountItems(cs[..|cs| - 1]) + |ItemsOf(value, "statuses")| + |ItemsOf(value, "messages")|
  }

  lemma {:induction false} AllItemsCount(cs: seq<Value>)
    ensures |AllItems(cs)| == CountItems(cs)
  {
    if cs != [] {
      AllItemsCount(cs[..|cs| - 1]);
    }
  }

  /** `expandJsonEvents` returns nothing when the entry or its changes are
      missing, and throws when `changes` is not an array or one of the
      changes is null or undefined. */
  lemma ExpandSpecCases(jsonData: Value)
    requires !IsNullish(jsonData)
    ensures !Truthy(Entry(jsonData)) ==> ExpandSpec(jsonData) == Normal([])
    ensures Truthy(Entry(jsonData)) && !Truthy(Get(Entry(jsonData), "changes").value) ==> ExpandSpec(jsonData) == Normal([])
    ensures var changes := OptGet(Entry(jsonData), "changes");
            Truthy(Entry(jsonData)) && Truthy(changes) && !changes.Arr? ==> ExpandSpec(jsonData).Throw?
    ensures var changes := OptGet(Entry(jsonData), "changes");
            Truthy(Entry(jsonData)) && changes.Arr? && (exists i :: 0 <= i < |changes.items| && IsNullish(changes.items[i]))
            ==> ExpandSpec(jsonData).Throw?
    ensures var changes := OptGet(Entry(jsonData), "changes");
            Truthy(Entry(jsonData)) && changes.Arr? && (forall i :: 0 <= i < |changes.items| ==> !IsNullish(changes.items[i]))
            ==> ExpandSpec(jsonData).Normal?
  {
    var entry := Entry(jsonData);
    if Truthy(entry) {
      var changes := Get(entry, "changes").value;
      if changes.Arr? {
        if i :| 0 <= i < |changes.items| && IsNullish(changes.items[i]) {
          NullChangeThrows(BaseFields(jsonData), Get(entry, "id").value, changes.items, i);
        } else {
          NoNullChangeExpands(BaseFields(jsonData), Get(entry, "id").value, changes.items);
        }
      }
    }
  }

  /** When `expandJsonEvents` returns units, there is one per status and per
      message of the entry's changes, each of the shape above, carrying the
      base properties of the message and the entry's id. */
  lemma ExpandSpecShape(jsonData: Value)
    requires !IsNullish(jsonData)
    ensures var changes := OptGet(Entry(jsonData), "changes");
            ExpandSpec(jsonData).Normal? && Truthy(Entry(jsonData)) && changes.Arr? ==>
              && |ExpandSpec(jsonData).value| == CountItems(changes.items)
              && Shaped(ExpandSpec(jsonData).value, BaseFields(jsonData), OptGet(Entry(jsonData), "id"), AllItems(changes.items))
  {
    var entry := Entry(jsonData);
    var changes := OptGet(entry, "changes");
    if Truthy(entry) && changes.Arr? {
      assert ExpandSpec(jsonData) == ExpandChanges(BaseFields(jsonData), OptGet(entry, "id"), changes.items);
      ExpandChangesCounted(BaseFields(jsonData), OptGet(entry, "id"), changes.items);
    }
  }

  lemma ExpandChangesCounted(base: seq<(string, Value)>, id: Value, cs: seq<Value>)
    requires |base| == 4
    ensures ExpandChanges(base, id, cs).Normal? ==>
              && |ExpandChanges(base, id, cs).value| == CountItems(cs)
              && Shaped(ExpandChanges(base, id, cs).value, base, id, AllItems(cs))
  {
    if ExpandChanges(base, id, cs).Normal? {
      ExpandChangesShape(base, id, cs);
      AllItemsCount(cs);
    }
  }

  /** A null or undefined change anywhere aborts the expansion. */
  lemma {:induction false} NullChangeThrows(base: seq<(string, Value)>, id: Value, cs: seq<Value>, i: nat)
    requires i < |cs| && IsNullish(cs[i])
    ensures ExpandChanges(base, id, cs).Throw?
    decreases |cs|
  {
    if i < |cs| - 1 {
      NullChangeThrows(base, id, cs[..|cs| - 1], i);
    }
  }

  /** With no null or undefined change, the expansion succeeds. */
  lemma {:induction false} NoNullChangeExpands(base: seq<(string, Value)>, id: Value, cs: seq<Value>)
    requires forall i :: 0 <= i < |cs| ==> !IsNullish(cs[i])
    ensures ExpandChanges(base, id, cs).Normal?
  {
    if cs != [] {
      NoNullChangeExpands(base, id, cs[..|cs| - 1]);
    }
  }
}
