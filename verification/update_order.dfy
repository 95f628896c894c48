/**
 * The order update handler: validates a PATCH request, builds a DynamoDB SET update
 * expression and its attribute values from every property of the body, and applies the
 * update to the order table. How the table evaluates a SET expression is modelled here
 * too, so that what the handler builds can be related to what the table stores.
 */
module UpdateOrder {
  import opened Wrappers
  import opened JsText
  import opened JsValue
  import opened Http
  import opened Store

  /** The attributes a list of properties sets, with their new values; a later property wins. */
  function FieldsMap(fs: Fields): Item {
    if fs == [] then map[]
    else
      var last := fs[|fs| - 1];
      FieldsMap(fs[..|fs| - 1])[last.0 := last.1]
  }

  /** With distinct names, every property lands under its own name, and nothing else is set. */
  lemma {:induction false} FieldsMapDistinct(fs: Fields)
    requires DistinctKeys(fs)
    ensures forall i :: 0 <= i < |fs| ==> fs[i].0 in FieldsMap(fs) && FieldsMap(fs)[fs[i].0] == fs[i].1
    ensures forall k :: k in FieldsMap(fs) ==> exists i :: 0 <= i < |fs| && fs[i].0 == k
  {
    if fs != [] {
      var init := fs[..|fs| - 1];
      FieldsMapDistinct(init);
      forall k | k in FieldsMap(fs)
        ensures exists i :: 0 <= i < |fs| && fs[i].0 == k
      {
        if k != fs[|fs| - 1].0 {
          assert k in FieldsMap(init);
          var i :| 0 <= i < |init| && init[i].0 == k;
          assert fs[i].0 == k;
        }
      }
    }
  }

  /** Only the names of the properties are set. */
  lemma {:induction false} FieldsMapNames(fs: Fields)
    ensures forall k :: k in FieldsMap(fs) ==> exists i :: 0 <= i < |fs| && fs[i].0 == k
  {
    if fs != [] {
      var init := fs[..|fs| - 1];
      FieldsMapNames(init);
      forall k | k in FieldsMap(fs)
        ensures exists i :: 0 <= i < |fs| && fs[i].0 == k
      {
        if k != fs[|fs| - 1].0 {
          assert k in FieldsMap(init);
          var i :| 0 <= i < |init| && init[i].0 == k;
          assert fs[i].0 == k;
        }
      }
    }
  }

  // ---------------------------------------------------------------------------
  // The update the handler builds

  /**
   * For a parsed body, whose property names are distinct, reading a property and collecting
   * the attributes the body sets agree: the two readings of the body are the same.
   */
  lemma LookupAgreesWithFieldsMap(fs: Fields, k: string)
    requires DistinctKeys(fs)
    ensures Lookup(fs, k).Some? <==> k in FieldsMap(fs)
    ensures k in FieldsMap(fs) ==> Lookup(fs, k) == Some(FieldsMap(fs)[k])
  {
    FieldsMapDistinct(fs);
    var r := Lookup(fs, k);
    if r.Some? {
      var i :| 0 <= i < |fs| && fs[i] == (k, r.value);
      assert FieldsMap(fs)[fs[i].0] == fs[i].1;
    }
    if k in FieldsMap(fs) {
      var i :| 0 <= i < |fs| && fs[i].0 == k;
      assert r.Some?;
    }
  }

  /** One clause `k = :k`; every clause but the first follows a blank (clauses are joined by ", "). */
  function ClauseText(first: bool, k: string): string {
    (if first then "" else " ") + k + " = :" + k
  }

  function ClauseTexts(keys: seq<string>): seq<string> {
    seq(|keys|, i requires 0 <= i < |keys| => ClauseText(i == 0, keys[i]))
  }

  /** `set k1 = :k1, k2 = :k2, …` over the given property names, in order. */
  function UpdateExpression(keys: seq<string>): string
    requires |keys| >= 1
  {
    "set " + Join(ClauseTexts(keys), ',')
  }

  /** The placeholder `:k` of each property. */
  function Placeholders(body: Fields): Fields {
    seq(|body|, i requires 0 <= i < |body| => (":" + body[i].0, body[i].1))
  }

  /** The expression attribute values: `:k` mapped to the value of property `k`. */
  function ValuesOf(body: Fields): map<string, Value> {
    FieldsMap(Placeholders(body))
  }

  /**
   * Builds the update from the body's properties in `Object.keys` order: the first one
   * opens the expression and each remaining one appends a clause and its value.
   */
  method BuildUpdate(body: Fields) returns (expr: string, values: map<string, Value>)
    requires |body| >= 1
    ensures expr == UpdateExpression(Keys(body))
    ensures values == ValuesOf(body)
  {
    var properties := Keys(body);
    var first := properties[0];
    properties := properties[1..];
    expr := "set " + first + " = :" + first;
    values := map[":" + first := body[0].1];
    assert Placeholders(body[..1]) == [(":" + first, body[0].1)];
    assert FieldsMap(Placeholders(body[..1])) == FieldsMap([])[":" + first := body[0].1];
    assert ClauseText(true, first) == first + " = :" + first;
    assert ClauseTexts(Keys(body)[..1]) == [first + " = :" + first];
    var i := 0;
    while i < |properties|
      invariant 0 <= i <= |properties| && properties == Keys(body)[1..]
      invariant expr == UpdateExpression(Keys(body)[..i + 1])
      invariant values == ValuesOf(body[..i + 1])
    {
      var property := properties[i];
      ghost var ks := Keys(body)[..i + 1];
      assert Keys(body)[..i + 2] == ks + [property];
      assert ClauseTexts(ks + [property]) == ClauseTexts(ks) + [ClauseText(false, property)];
      JoinSnoc(ClauseTexts(ks), ClauseText(false, property), ',');
      assert expr + ", " + property + " = :" + property
          == "set " + (Join(ClauseTexts(ks), ',') + [','] + ClauseText(false, property));
      expr := expr + ", " + property + " = :" + property;

      ghost var ps := Placeholders(body[..i + 2]);
      assert ps[..i + 1] == Placeholders(body[..i + 1]);
      assert ps[i + 1] == (":" + property, body[i + 1].1);
      values := values[":" + property := body[i + 1].1];
      i := i + 1;
    }
    assert Keys(body)[..|properties| + 1] == Keys(body);
    assert body[..|properties| + 1] == body;
  }

  // ---------------------------------------------------------------------------
  // How the order table evaluates a SET update

  predicate IsLetter(c: char) {
    'a' <= c <= 'z' || 'A' <= c <= 'Z'
  }

  predicate IsNameChar(c: char) {
    IsLetter(c) || IsAsciiDigit(c) || c == '_'
  }

  /** An attribute name usable in an expression as it stands: a letter, then letters, digits or underscores. */
  predicate SimpleName(k: string) {
    |k| >= 1 && IsLetter(k[0]) && forall i :: 0 <= i < |k| ==> IsNameChar(k[i])
  }

  function StripLeading(s: string): string
    decreases |s|
  {
    if |s| > 0 && s[0] == ' ' then StripLeading(s[1..]) else s
  }

  function StripTrailing(s: string): string
    decreases |s|
  {
    if |s| > 0 && s[|s| - 1] == ' ' then StripTrailing(s[..|s| - 1]) else s
  }

  /** A token of the expression with the blanks around it dropped. */
  function StripSpaces(s: string): string {
    StripTrailing(StripLeading(s))
  }

  /** One `name = :placeholder` clause, as (name, placeholder). */
  function ParseClause(c: string): Option<(string, string)> {
    var sides := Split(c, '=');
    if |sides| == 2 then Some((StripSpaces(sides[0]), StripSpaces(sides[1]))) else None
  }

  /** The clauses of a `set …` expression, in order. */
  function ParseSet(expr: string): Option<seq<(string, string)>> {
    if |expr| >= 4 && expr[..4] == "set " then
      var cs := Split(expr[4..], ',');
      if forall i :: 0 <= i < |cs| ==> ParseClause(cs[i]).Some? then
        Some(seq(|cs|, i requires 0 <= i < |cs| => ParseClause(cs[i]).value))
      else None
    else None
  }

  /** A name the table lets a SET update assign: simple, not a reserved word, not the key attribute. */
  predicate Updatable(name: string, reserved: set<string>) {
    SimpleName(name) && name !in reserved && name != OrderKey
  }

  /**
   * The assignments a SET update performs, or `None` when the table rejects the request:
   * a name it cannot assign, a name assigned twice, a placeholder without a value, or a
   * value no placeholder uses.
   */
  function Assignments(expr: string, values: map<string, Value>, reserved: set<string>): Option<Fields> {
    var parsed := ParseSet(expr);
    if parsed.None? then None
    else
      var ps := parsed.value;
      if && (forall i :: 0 <= i < |ps| ==> Updatable(ps[i].0, reserved) && ps[i].1 in values)
         && (forall i, j :: 0 <= i < j < |ps| ==> ps[i].0 != ps[j].0)
         && (forall p :: p in values ==> exists i :: 0 <= i < |ps| && ps[i].1 == p)
      then Some(seq(|ps|, i requires 0 <= i < |ps| && ps[i].1 in values => (ps[i].0, values[ps[i].1])))
      else None
  }

  lemma StripName(pre: string, k: string)
    requires pre == "" || pre == " "
    requires SimpleName(k)
    ensures StripSpaces(pre + k + " ") == k
  {
    var s, t := pre + k + " ", k + " ";
    assert IsNameChar(k[0]) && IsNameChar(k[|k| - 1]);
    assert t[0] == k[0] != ' ';
    assert StripLeading(t) == t;
    if pre == " " {
      assert s[1..] == t;
    } else {
      assert s == t;
    }
    assert t[..|k|] == k;
    assert StripTrailing(k) == k;
  }

  lemma StripPlaceholder(k: string)
    requires SimpleName(k)
    ensures StripSpaces(" :" + k) == ":" + k
  {
    var t := ":" + k;
    assert (" :" + k)[1..] == t;
    assert StripLeading(t) == t;
    assert IsNameChar(k[|k| - 1]);
    assert t[|t| - 1] == k[|k| - 1] != ' ';
  }

  lemma ParseClauseText(first: bool, k: string)
    requires SimpleName(k)
    ensures ParseClause(ClauseText(first, k)) == Some((k, ":" + k))
  {
    var pre := if first then "" else " ";
    var x, y := pre + k + " ", " :" + k;
    assert ClauseText(first, k) == x + ['='] + y;
    assert '=' !in x by {
      forall i | 0 <= i < |x| ensures x[i] != '=' {
        if |pre| <= i < |pre| + |k| {
          assert x[i] == k[i - |pre|];
        }
      }
    }
    assert '=' !in y by {
      forall i | 2 <= i < |y| ensures y[i] != '=' {
        assert y[i] == k[i - 2];
      }
    }
    SplitAfter(x, '=', y);
    SplitNone(y, '=');
    StripName(pre, k);
    StripPlaceholder(k);
  }

  /** The table reads back, clause by clause, the names and placeholders the handler wrote. */
  lemma ParseBuilt(keys: seq<string>)
    requires |keys| >= 1 && forall i :: 0 <= i < |keys| ==> SimpleName(keys[i])
    ensures ParseSet(UpdateExpression(keys)) == Some(seq(|keys|, i requires 0 <= i < |keys| => (keys[i], ":" + keys[i])))
  {
    var cs := ClauseTexts(keys);
    forall i | 0 <= i < |cs|
      ensures ',' !in cs[i] && ParseClause(cs[i]) == Some((keys[i], ":" + keys[i]))
    {
      var k := keys[i];
      var pre := if i == 0 then "" else " ";
      forall j | 0 <= j < |cs[i]| ensures cs[i][j] != ',' {
        if |pre| <= j < |pre| + |k| {
          assert cs[i][j] == k[j - |pre|];
        } else if |pre| + |k| + 4 <= j {
          assert cs[i][j] == k[j - |pre| - |k| - 4];
        }
      }
      ParseClauseText(i == 0, k);
    }
    SplitJoin(cs, ',');
    var e := UpdateExpression(keys);
    assert e[..4] == "set " && e[4..] == Join(cs, ',');
    assert Split(e[4..], ',') == cs;
    var parsed := seq(|cs|, i requires 0 <= i < |cs| => ParseClause(cs[i]).value);
    assert parsed == seq(|keys|, i requires 0 <= i < |keys| => (keys[i], ":" + keys[i]));
  }

  /** The placeholders of distinct properties are distinct. */
  lemma PlaceholdersDistinct(body: Fields)
    requires DistinctKeys(body)
    ensures DistinctKeys(Placeholders(body))
  {
    var ps := Placeholders(body);
    forall i, j | 0 <= i < j < |ps| ensures ps[i].0 != ps[j].0 {
      assert ps[i].0[1..] == body[i].0;
      assert ps[j].0[1..] == body[j].0;
    }
  }

  /**
   * Round trip: for a body whose property names are distinct and assignable, the table
   * performs exactly the body's properties, in order, with their values.
   */
  lemma BuiltUpdateRoundTrip(body: Fields, reserved: set<string>)
    requires |body| >= 1 && DistinctKeys(body)
    requires forall i :: 0 <= i < |body| ==> Updatable(body[i].0, reserved)
    ensures Assignments(UpdateExpression(Keys(body)), ValuesOf(body), reserved) == Some(body)
  {
    var keys := Keys(body);
    ParseBuilt(keys);
    var ps := seq(|keys|, i requires 0 <= i < |keys| => (keys[i], ":" + keys[i]));
    var values := ValuesOf(body);
    ValuesOfBody(body);
    AssignedBody(body, values, ps);
    AcceptedAssignments(UpdateExpression(keys), values, reserved, ps);
  }

  /** Looking every clause's placeholder up in the attribute values gives back the body. */
  lemma AssignedBody(body: Fields, values: map<string, Value>, ps: seq<(string, string)>)
    requires |ps| == |body| && forall i :: 0 <= i < |body| ==> ps[i] == (body[i].0, ":" + body[i].0)
    requires forall i :: 0 <= i < |body| ==> ":" + body[i].0 in values && values[":" + body[i].0] == body[i].1
    requires forall p :: p in values ==> exists i :: 0 <= i < |body| && p == ":" + body[i].0
    ensures forall i :: 0 <= i < |ps| ==> ps[i].1 in values
    ensures forall p :: p in values ==> exists i :: 0 <= i < |ps| && ps[i].1 == p
    ensures seq(|ps|, i requires 0 <= i < |ps| && ps[i].1 in values => (ps[i].0, values[ps[i].1])) == body
  {
    forall p | p in values
      ensures exists i :: 0 <= i < |ps| && ps[i].1 == p
    {
      var i :| 0 <= i < |body| && p == ":" + body[i].0;
      assert ps[i].1 == p;
    }
    var r := seq(|ps|, i requires 0 <= i < |ps| && ps[i].1 in values => (ps[i].0, values[ps[i].1]));
    forall i | 0 <= i < |body| ensures r[i] == body[i] {
      assert ps[i] == (body[i].0, ":" + body[i].0);
    }
  }

  /** The attribute values hold each property's value under its placeholder, and nothing else. */
  lemma ValuesOfBody(body: Fields)
    requires DistinctKeys(body)
    ensures forall i :: 0 <= i < |body| ==> ":" + body[i].0 in ValuesOf(body) && ValuesOf(body)[":" + body[i].0] == body[i].1
    ensures forall p :: p in ValuesOf(body) ==> exists i :: 0 <= i < |body| && p == ":" + body[i].0
  {
    var ph := Placeholders(body);
    PlaceholdersDistinct(body);
    FieldsMapDistinct(ph);
    assert forall i :: 0 <= i < |body| ==> ph[i] == (":" + body[i].0, body[i].1);
  }

  /** A parsed update whose names are assignable and distinct and whose values are all used is accepted. */
  lemma AcceptedAssignments(expr: string, values: map<string, Value>, reserved: set<string>, ps: seq<(string, string)>)
    requires ParseSet(expr) == Some(ps)
    requires forall i :: 0 <= i < |ps| ==> Updatable(ps[i].0, reserved) && ps[i].1 in values
    requires forall i, j :: 0 <= i < j < |ps| ==> ps[i].0 != ps[j].0
    requires forall p :: p in values ==> exists i :: 0 <= i < |ps| && ps[i].1 == p
    ensures Assignments(expr, values, reserved)
            == Some(seq(|ps|, i requires 0 <= i < |ps| && ps[i].1 in values => (ps[i].0, values[ps[i].1])))
  {
  }

  /** For simple, distinct names, the table rejects the update exactly when some name is reserved or is the key. */
  lemma BuiltUpdateRejected(body: Fields, reserved: set<string>)
    requires |body| >= 1 && DistinctKeys(body)
    requires forall i :: 0 <= i < |body| ==> SimpleName(body[i].0)
    ensures Assignments(UpdateExpression(Keys(body)), ValuesOf(body), reserved).None?
            <==> exists i :: 0 <= i < |body| && (body[i].0 in reserved || body[i].0 == OrderKey)
  {
    var keys := Keys(body);
    ParseBuilt(keys);
    var ps := seq(|keys|, i requires 0 <= i < |keys| => (keys[i], ":" + keys[i]));
    if forall i :: 0 <= i < |body| ==> Updatable(body[i].0, reserved) {
      BuiltUpdateRoundTrip(body, reserved);
    } else {
      var i :| 0 <= i < |body| && !Updatable(body[i].0, reserved);
      assert ps[i].0 == body[i].0;
    }
  }

  // ---------------------------------------------------------------------------
  // The handler

  /** The order an update addresses, or a new item holding only its key: the update creates it. */
  function BaseItem(orders: map<string, Item>, id: string): Item {
    if id in orders then orders[id] else map[OrderKey := Str(id)]
  }

  /** The response to the update's result: the result when truthy, otherwise "Order Data not found". */
  function UpdateResponse(data: Option<Value>): Response {
    if Present(data) then Response(200, Message(data.value)) else MessageResponse(200, "Order Data not found")
  }

  /** A PATCH request that passes validation: a non-empty path id and a body with truthy `partnerId` and `orderStatus`. */
  predicate Admissible(e: ApiEvent) {
    && e.httpMethod == "PATCH" && e.path.Some? && e.body.Some? && Present(Param(e.path, "id"))
    && Present(Lookup(e.body.value, "partnerId")) && Present(Lookup(e.body.value, "orderStatus"))
  }

  /** The outcome of validation: a response that ends the request, or the order id and the body to apply. */
  datatype Request = Rejected(response: Response) | Update(orderId: string, body: Fields)

  /**
   * The validation ladder. An accepted body always has at least two properties, so the
   * handler's "no arguments provided" answer can never be given.
   */
  function Validate(event: Option<ApiEvent>): (r: Request)
    ensures event.None? ==> r == Rejected(MessageResponse(404, "Invalid request"))
    ensures event.Some? && event.value.httpMethod != "PATCH" ==> r == Rejected(MessageResponse(405, "Method Not Supported"))
    ensures event.Some? && event.value.httpMethod == "PATCH"
            && (event.value.path.None? || event.value.body.None? || !Present(Param(event.value.path, "id")))
            ==> r == Rejected(MessageResponse(404, "Invalid parameters"))
    ensures event.Some? && event.value.httpMethod == "PATCH" && event.value.path.Some? && event.value.body.Some?
            && Present(Param(event.value.path, "id"))
            && !(Present(Lookup(event.value.body.value, "partnerId")) && Present(Lookup(event.value.body.value, "orderStatus")))
            ==> r == Rejected(MessageResponse(404, "invalid request parameters"))
    ensures r.Update? <==> event.Some? && Admissible(event.value)
    ensures r.Update? ==> r.orderId == event.value.path.value["id"] && r.body == event.value.body.value
    ensures r.Update? ==> |Keys(r.body)| >= 2
  {
    if event.None? then Rejected(MessageResponse(404, "Invalid request"))
    else
      var e := event.value;
      if e.httpMethod != "PATCH" then Rejected(MessageResponse(405, "Method Not Supported"))
      else if e.path.None? || e.body.None? || !Present(Param(e.path, "id")) then Rejected(MessageResponse(404, "Invalid parameters"))
      else
        var body := e.body.value;
        if !Present(Lookup(body, "partnerId")) || !Present(Lookup(body, "orderStatus")) then
          Rejected(MessageResponse(404, "invalid request parameters"))
        else
          assert |body| >= 2 by {
            var i :| 0 <= i < |body| && body[i].0 == "partnerId";
            var j :| 0 <= j < |body| && body[j].0 == "orderStatus";
            assert i != j;
          }
          Update(e.path.value["id"], body)
  }

  /**
   * Handles an update request against the tables. The table's reserved words and a
   * failure of the update call are inputs.
   */
  method HandleUpdate(t: Tables, event: Option<ApiEvent>, reserved: set<string>, updateFails: bool) returns (out: Outcome)
    requires t.Valid()
    modifies t
    ensures t.Valid() && t.partners == old(t.partners)
    ensures Validate(event).Rejected? ==> out == Returned(Validate(event).response) && t.orders == old(t.orders)
    ensures Validate(event).Update? ==>
              var body, id := Validate(event).body, Validate(event).orderId;
              var asg := Assignments(UpdateExpression(Keys(body)), ValuesOf(body), reserved);
              && (asg.None? || updateFails ==> out.Threw? && t.orders == old(t.orders))
              && (asg.Some? && !updateFails ==>
                    && t.orders == old(t.orders)[id := BaseItem(old(t.orders), id) + FieldsMap(asg.value)]
                    && out == Returned(Response(200, Message(Obj(map["Attributes" := Obj(FieldsMap(asg.value))])))))
  {
    var request := Validate(event);
    if request.Rejected? {
      return Returned(request.response);
    }
    out := ApplyUpdate(t, request.orderId, request.body, reserved, updateFails);
  }

  /** The accepted part of the handler: build the update, run it, answer with what it returns. */
  method ApplyUpdate(t: Tables, orderId: string, editedItem: Fields, reserved: set<string>, updateFails: bool)
    returns (out: Outcome)
    requires t.Valid() && |Keys(editedItem)| >= 2
    modifies t
    ensures t.Valid() && t.partners == old(t.partners)
    ensures var asg := Assignments(UpdateExpression(Keys(editedItem)), ValuesOf(editedItem), reserved);
            && (asg.None? || updateFails ==> out.Threw? && t.orders == old(t.orders))
            && (asg.Some? && !updateFails ==>
                  && t.orders == old(t.orders)[orderId := BaseItem(old(t.orders), orderId) + FieldsMap(asg.value)]
                  && out == Returned(Response(200, Message(Obj(map["Attributes" := Obj(FieldsMap(asg.value))])))))
  {
    if |Keys(editedItem)| < 1 {
      assert false;
      return Returned(Response(400, Raw("invalid request, no arguments provided")));
    }
    var expr, values := BuildUpdate(editedItem);
    var asg := Assignments(expr, values, reserved);
    if asg.None? || updateFails {
      return Threw("Failed to get order info");
    }
    var updated := FieldsMap(asg.value);
    AssignedNotKey(expr, values, reserved);
    KeyKept(t.orders, orderId, updated);
    t.orders := t.orders[orderId := BaseItem(t.orders, orderId) + updated];
    var data := Obj(map["Attributes" := Obj(updated)]);
    assert Present(Some(data));
    out := Returned(UpdateResponse(Some(data)));
    assert out == Returned(Response(200, Message(data)));
  }

  /** An accepted update never assigns the key attribute. */
  lemma AssignedNotKey(expr: string, values: map<string, Value>, reserved: set<string>)
    requires Assignments(expr, values, reserved).Some?
    ensures OrderKey !in FieldsMap(Assignments(expr, values, reserved).value)
  {
    var asg := Assignments(expr, values, reserved).value;
    assert forall i :: 0 <= i < |asg| ==> asg[i].0 != OrderKey;
    FieldsMapNames(asg);
  }

  /** Merging attributes other than the key into an order keeps every order stored under its own key. */
  lemma KeyKept(orders: map<string, Item>, id: string, updated: Item)
    requires forall k :: k in orders ==> OrderKey in orders[k] && orders[k][OrderKey] == Str(k)
    requires OrderKey !in updated
    ensures var after := orders[id := BaseItem(orders, id) + updated];
            forall k :: k in after ==> OrderKey in after[k] && after[k][OrderKey] == Str(k)
  {
    var merged := BaseItem(orders, id) + updated;
    assert OrderKey in merged && merged[OrderKey] == Str(id);
  }

  /**
   * What an accepted update stores, for a body with distinct, assignable property names:
   * every property verbatim under its own name, and every other attribute of the order as
   * it was.
   */
  lemma UpdateStoresBody(base: Item, body: Fields, reserved: set<string>)
    requires |body| >= 1 && DistinctKeys(body)
    requires forall i :: 0 <= i < |body| ==> Updatable(body[i].0, reserved)
    ensures Assignments(UpdateExpression(Keys(body)), ValuesOf(body), reserved) == Some(body)
    ensures forall i :: 0 <= i < |body| ==> body[i].0 in FieldsMap(body)
    ensures forall i :: 0 <= i < |body| ==> (base + FieldsMap(body))[body[i].0] == body[i].1
  {
    BuiltUpdateRoundTrip(body, reserved);
    FieldsMapDistinct(body);
  }
}
