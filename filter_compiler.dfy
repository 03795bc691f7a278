/**
 * The filter expression compiler inside `query_collection` (claude-api.py:166-221):
 * an optional `{operator, conditions: [{field, operator, value}]}` object becomes
 * no filter or one flat `all_of` / `any_of` group of per-field comparisons.
 * Invalid conditions are skipped; only a condition that is not an object, or an
 * operator that is not a string, makes Python raise (and the request fail with 500).
 */
module FilterCompiler {
  import opened Wrappers
  import opened JsonValues

  /** The per-field comparison builders of the backend's `Filter.by_property(field)`. */
  datatype Comparison = Equal | NotEqual | GreaterThan | GreaterOrEqual | LessThan | LessOrEqual | Like

  /** `Filter.by_property(field).<comparison>(value)`. */
  datatype Cmp = Cmp(field: Json, op: Comparison, value: Json)

  /** `Filter.all_of(members)` or `Filter.any_of(members)`. */
  datatype Filter = AllOf(members: seq<Cmp>) | AnyOf(members: seq<Cmp>)

  /** The exception Python raises while reading the filters. */
  datatype Fault =
    | NonTextOperator     // `.lower()` on an operator that is not a string
    | NonObjectCondition  // `.get(...)` on a condition that is not a dict

  /** The operator name each comparison is requested by. */
  function OperatorName(c: Comparison): string
  {
    match c
    case Equal => "eq"
    case NotEqual => "neq"
    case GreaterThan => "gt"
    case GreaterOrEqual => "gte"
    case LessThan => "lt"
    case LessOrEqual => "lte"
    case Like => "like"
  }

  /** Looks a lower-cased operator up in `supported_ops` and picks the comparison applied to it. */
  function SupportedOperator(op: string): (r: Option<Comparison>)
    ensures r.Some? <==> op in {"eq", "neq", "gt", "gte", "lt", "lte", "like"}
    ensures r.Some? ==> OperatorName(r.value) == op
  {
    if op == "eq" then Some(Equal)
    else if op == "neq" then Some(NotEqual)
    else if op == "gt" then Some(GreaterThan)
    else if op == "gte" then Some(GreaterOrEqual)
    else if op == "lt" then Some(LessThan)
    else if op == "lte" then Some(LessOrEqual)
    else if op == "like" then Some(Like)
    else None
  }

  /** The operator table is a bijection between the seven names and the seven comparisons. */
  lemma OperatorTable(op: string, c: Comparison)
    ensures SupportedOperator(OperatorName(c)) == Some(c)
    ensures SupportedOperator(op) == Some(c) <==> op == OperatorName(c)
    ensures SupportedOperator(op).Some? <==> op in {"eq", "neq", "gt", "gte", "lt", "lte", "like"}
  {
  }

  /**
   * One iteration of the loop over `conditions_input`: Failure when Python raises,
   * Success(None) when the condition is skipped, Success(Some(cmp)) when it is kept.
   */
  function Convert(cond: Json): (r: Result<Option<Cmp>, Fault>)
    ensures !cond.JObj? ==> r == Failure(NonObjectCondition)
    ensures r.Success? && r.value.Some? ==>
              && cond.JObj? && "field" in cond.fields && "value" in cond.fields
              && r.value.value.field == cond.fields["field"] && Truthy(r.value.value.field)
              && r.value.value.value == cond.fields["value"] && r.value.value.value != JNull
              && (r.value.value.op == Like ==> r.value.value.value.JStr?)
  {
    if !cond.JObj? then Failure(NonObjectCondition)
    else
      var field := Get(cond.fields, "field");
      var opText := GetOr(cond.fields, "operator", JStr(""));
      if !opText.JStr? then Failure(NonTextOperator)
      else
        var value := Get(cond.fields, "value");
        var op := SupportedOperator(Lower(opText.s));
        if !Truthy(field) || op.None? || value == JNull then Success(None)
        else if op.value == Like && !value.JStr? then Success(None)
        else Success(Some(Cmp(field, op.value, value)))
  }

  /** The loop over all conditions, in order; the first exception ends it. */
  function CompileAll(conds: seq<Json>): (r: Result<seq<Cmp>, Fault>)
    ensures r.Success? ==> |r.value| <= |conds|
  {
    if conds == [] then Success([])
    else
      match Convert(conds[0])
      case Failure(e) => Failure(e)
      case Success(kept) =>
        match CompileAll(conds[1..])
        case Failure(e) => Failure(e)
        case Success(rest) => Success(if kept.Some? then [kept.value] + rest else rest)
  }

  /**
   * The whole block (claude-api.py:166-219): the `weaviate_filter` passed to the search,
   * or the exception raised on the way.
   */
  function Compile(filters: Json): (r: Result<Option<Filter>, Fault>)
    ensures !(Truthy(filters) && filters.JObj?) ==> r == Success(None)
    ensures r.Success? && r.value.Some? ==> r.value.value.members != []
    ensures r.Success? && r.value.Some? ==>
              && filters.JObj? && "conditions" in filters.fields && filters.fields["conditions"].JArr?
              && |r.value.value.members| <= |filters.fields["conditions"].items|
  {
    if !(Truthy(filters) && filters.JObj?) then Success(None)
    else
      var conditionsInput := GetOr(filters.fields, "conditions", JArr([]));
      var opText := GetOr(filters.fields, "operator", JStr("And"));
      if !opText.JStr? then Failure(NonTextOperator)
      else if !(Truthy(conditionsInput) && conditionsInput.JArr?) then Success(None)
      else
        match CompileAll(conditionsInput.items)
        case Failure(e) => Failure(e)
        case Success(cmps) =>
          if cmps == [] then Success(None)
          else if Lower(opText.s) == "or" then Success(Some(AnyOf(cmps)))
          else Success(Some(AllOf(cmps)))
  }

  /** Combines the loop outcomes of two consecutive runs of conditions. */
  function Then(a: Result<seq<Cmp>, Fault>, b: Result<seq<Cmp>, Fault>): Result<seq<Cmp>, Fault>
  {
    match a
    case Failure(e) => Failure(e)
    case Success(x) =>
      match b
      case Failure(e) => Failure(e)
      case Success(y) => Success(x + y)
  }

  /**
   * Skip rule: a condition object whose operator is absent or a string is dropped
   * exactly when its field is missing or falsy, its lower-cased operator is not
   * one of the seven, its value is None, or it is a `like` with a non-string value.
   */
  lemma ConvertSkips(fields: map<string, Json>)
    requires GetOr(fields, "operator", JStr("")).JStr?
    ensures var op := SupportedOperator(Lower(GetOr(fields, "operator", JStr("")).s));
            var value := Get(fields, "value");
            Convert(JObj(fields)) == Success(None) <==>
              !Truthy(Get(fields, "field")) || op.None? || value == JNull || (op == Some(Like) && !value.JStr?)
  {
  }

  /**
   * A kept condition becomes exactly one comparison on its own field and value,
   * chosen by the operator table.
   */
  lemma ConvertKeeps(fields: map<string, Json>, cmp: Cmp)
    requires Convert(JObj(fields)) == Success(Some(cmp))
    ensures cmp.field == fields["field"] && Truthy(cmp.field)
    ensures cmp.value == fields["value"] && cmp.value != JNull
    ensures "operator" in fields && fields["operator"].JStr?
    ensures Lower(fields["operator"].s) == OperatorName(cmp.op)
    ensures cmp.op == Like ==> cmp.value.JStr?
  {
    OperatorTable(Lower(fields["operator"].s), cmp.op);
  }

  /**
   * Conversely, a condition object whose operator is a string or absent and which
   * passes the skip test is kept, as the comparison its operator names on its own
   * field and value.
   */
  lemma ConvertKeepsValid(fields: map<string, Json>)
    requires GetOr(fields, "operator", JStr("")).JStr?
    requires var op := SupportedOperator(Lower(GetOr(fields, "operator", JStr("")).s));
             var value := Get(fields, "value");
             && Truthy(Get(fields, "field")) && op.Some? && value != JNull
             && (op == Some(Like) ==> value.JStr?)
    ensures var op := SupportedOperator(Lower(GetOr(fields, "operator", JStr("")).s));
            Convert(JObj(fields)) == Success(Some(Cmp(Get(fields, "field"), op.value, Get(fields, "value"))))
  {
  }

  /**
   * Falsy values other than None survive: 0, false and "" are kept and compared
   * against, since only a value that is None is skipped.
   */
  lemma ConvertKeepsFalsyValues(field: string, c: Comparison, value: Json)
    requires field != ""
    requires value in {JNum(0.0), JBool(false), JStr("")}
    requires c != Like || value.JStr?
    ensures Convert(JObj(map["field" := JStr(field), "operator" := JStr(OperatorName(c)), "value" := value]))
         == Success(Some(Cmp(JStr(field), c, value)))
  {
    var name := OperatorName(c);
    assert Lower(name) == name;
    OperatorTable(name, c);
  }

  /** The loop is a homomorphism: the conditions are handled one by one, in order. */
  lemma {:induction false} CompileAllConcat(a: seq<Json>, b: seq<Json>)
    ensures CompileAll(a + b) == Then(CompileAll(a), CompileAll(b))
  {
    if a == [] {
      assert a + b == b;
      if CompileAll(b).Success? {
        assert [] + CompileAll(b).value == CompileAll(b).value;
      }
    } else {
      assert (a + b)[0] == a[0];
      assert (a + b)[1..] == a[1..] + b;
      CompileAllConcat(a[1..], b);
      match Convert(a[0])
      case Failure(e) =>
      case Success(kept) =>
        match CompileAll(a[1..])
        case Failure(e) =>
        case Success(x) =>
          if CompileAll(b).Success? {
            var y := CompileAll(b).value;
            if kept.Some? {
              assert [kept.value] + (x + y) == ([kept.value] + x) + y;
            }
          }
    }
  }

  /** A single condition contributes its comparison, nothing, or its exception. */
  lemma CompileAllSingle(cond: Json)
    ensures CompileAll([cond]) == match Convert(cond)
                                  case Failure(e) => Failure(e)
                                  case Success(kept) => Success(if kept.Some? then [kept.value] else [])
  {
    assert [cond][1..] == [];
    assert CompileAll([cond][1..]) == Success([]);
    if Convert(cond).Success? && Convert(cond).value.Some? {
      assert [Convert(cond).value.value] + [] == [Convert(cond).value.value];
    }
  }

  /** Every comparison the loop produces comes from some kept condition. */
  lemma {:induction false} CompileAllFromKept(conds: seq<Json>)
    requires CompileAll(conds).Success?
    ensures forall j :: 0 <= j < |CompileAll(conds).value| ==>
              exists i :: 0 <= i < |conds| && Convert(conds[i]) == Success(Some(CompileAll(conds).value[j]))
  {
    if conds != [] {
      var rest := conds[1..];
      CompileAllFromKept(rest);
      var out := CompileAll(conds).value;
      var tail := CompileAll(rest).value;
      var kept := Convert(conds[0]).value;
      assert out == if kept.Some? then [kept.value] + tail else tail;
      forall j | 0 <= j < |out|
        ensures exists i :: 0 <= i < |conds| && Convert(conds[i]) == Success(Some(out[j]))
      {
        if kept.Some? && j == 0 {
          assert Convert(conds[0]) == Success(Some(out[j]));
        } else {
          var j' := if kept.Some? then j - 1 else j;
          assert out[j] == tail[j'];
          var i' :| 0 <= i' < |rest| && Convert(rest[i']) == Success(Some(tail[j']));
          assert conds[i' + 1] == rest[i'];
        }
      }
    }
  }

  /** Every kept condition's comparison is among those the loop produces. */
  lemma {:induction false} CompileAllKeepsKept(conds: seq<Json>)
    requires CompileAll(conds).Success?
    ensures forall i :: 0 <= i < |conds| && Convert(conds[i]).Success? && Convert(conds[i]).value.Some? ==>
              Convert(conds[i]).value.value in CompileAll(conds).value
  {
    if conds != [] {
      var rest := conds[1..];
      CompileAllKeepsKept(rest);
      forall i | 0 <= i < |conds| && Convert(conds[i]).Success? && Convert(conds[i]).value.Some?
        ensures Convert(conds[i]).value.value in CompileAll(conds).value
      {
        if i > 0 {
          assert conds[i] == rest[i - 1];
        }
      }
    }
  }

  /**
   * Provenance: every comparison produced comes from some kept condition, and every
   * kept condition's comparison is produced.
   */
  lemma CompileAllProvenance(conds: seq<Json>)
    requires CompileAll(conds).Success?
    ensures forall j :: 0 <= j < |CompileAll(conds).value| ==>
              exists i :: 0 <= i < |conds| && Convert(conds[i]) == Success(Some(CompileAll(conds).value[j]))
    ensures forall i :: 0 <= i < |conds| && Convert(conds[i]).Success? && Convert(conds[i]).value.Some? ==>
              Convert(conds[i]).value.value in CompileAll(conds).value
    ensures |CompileAll(conds).value| <= |conds|
  {
    CompileAllFromKept(conds);
    CompileAllKeepsKept(conds);
  }

  /** The condition loop raises nothing when every condition is an object whose operator is a string or absent. */
  lemma {:induction false} CompileAllSucceeds(conds: seq<Json>)
    requires forall i :: 0 <= i < |conds| ==> conds[i].JObj? && GetOr(conds[i].fields, "operator", JStr("")).JStr?
    ensures CompileAll(conds).Success?
  {
    if conds != [] {
      CompileAllSucceeds(conds[1..]);
    }
  }

  /**
   * No filter in exactly three cases: the filters are absent, empty or not an
   * object; the conditions are missing, empty or not a list; or no condition survives.
   */
  lemma CompileNone(filters: Json)
    ensures Compile(filters) == Success(None) <==>
      || !(Truthy(filters) && filters.JObj?)
      || (&& GetOr(filters.fields, "operator", JStr("And")).JStr?
          && var conditionsInput := GetOr(filters.fields, "conditions", JArr([]));
             || !(Truthy(conditionsInput) && conditionsInput.JArr?)
             || CompileAll(conditionsInput.items) == Success([]))
  {
  }

  /**
   * Otherwise the group is `any_of` exactly when the lower-cased top-level operator
   * is "or" (`all_of` also when it is absent), and its members are the surviving
   * comparisons in their original order.
   */
  lemma CompileGroup(filters: Json, g: Filter)
    requires Compile(filters) == Success(Some(g))
    ensures filters.JObj?
    ensures var opText := GetOr(filters.fields, "operator", JStr("And"));
            opText.JStr? && (g.AnyOf? <==> Lower(opText.s) == "or")
    ensures "operator" !in filters.fields ==> g.AllOf?
    ensures "conditions" in filters.fields && filters.fields["conditions"].JArr?
    ensures CompileAll(filters.fields["conditions"].items) == Success(g.members)
    ensures g.members != []
  {
    if "operator" !in filters.fields {
      assert Lower("And") == "and";
    }
  }

  /**
   * A filters object with a string or absent operator and a conditions list whose
   * loop yields comparisons compiles to the group of those comparisons: `any_of` when
   * the operator lower-cases to "or", `all_of` otherwise and when it is absent.
   */
  lemma CompileGroupOf(filters: Json, cmps: seq<Cmp>)
    requires filters.JObj? && GetOr(filters.fields, "operator", JStr("And")).JStr?
    requires "conditions" in filters.fields && filters.fields["conditions"].JArr?
    requires CompileAll(filters.fields["conditions"].items) == Success(cmps) && cmps != []
    ensures var s := GetOr(filters.fields, "operator", JStr("And")).s;
            Compile(filters) == Success(Some(if Lower(s) == "or" then AnyOf(cmps) else AllOf(cmps)))
    ensures "operator" !in filters.fields ==> Compile(filters) == Success(Some(AllOf(cmps)))
  {
    if "operator" !in filters.fields {
      assert Lower("And") == "and";
    }
  }

  /** The operator's text is read before the conditions: a non-string operator raises even without conditions. */
  lemma CompileOperatorFirst(filters: Json)
    requires Truthy(filters) && filters.JObj?
    requires "operator" in filters.fields && !filters.fields["operator"].JStr?
    ensures Compile(filters) == Failure(NonTextOperator)
  {
  }

  /** A lone condition with an unsupported operator yields no filter, not an error. */
  lemma UnsupportedOperatorGivesNoFilter(field: string, op: string, value: Json)
    requires SupportedOperator(Lower(op)).None?
    ensures var cond := JObj(map["field" := JStr(field), "operator" := JStr(op), "value" := value]);
            Compile(JObj(map["conditions" := JArr([cond])])) == Success(None)
  {
    var cond := JObj(map["field" := JStr(field), "operator" := JStr(op), "value" := value]);
    CompileAllSingle(cond);
  }

  /**
   * The loop of claude-api.py:183-219 as written: appends to `filter_conditions`
   * and picks the group at the end.
   */
  method CompileFilter(filters: Json) returns (result: Result<Option<Filter>, Fault>)
    ensures result == Compile(filters)
  {
    result := Success(None);
    if !(Truthy(filters) && filters.JObj?) {
      return;
    }
    var conditionsInput := GetOr(filters.fields, "conditions", JArr([]));
    var operatorText := GetOr(filters.fields, "operator", JStr("And"));
    if !operatorText.JStr? {
      return Failure(NonTextOperator);
    }
    var operatorType := Lower(operatorText.s);
    if !(Truthy(conditionsInput) && conditionsInput.JArr?) {
      return;
    }
    var conds := conditionsInput.items;
    var filterConditions: seq<Cmp> := [];
    var i := 0;
    while i < |conds|
      invariant 0 <= i <= |conds|
      invariant CompileAll(conds[..i]) == Success(filterConditions)
    {
      var cond := conds[i];
      CompileAllConcat(conds[..i], [cond]);
      CompileAllSingle(cond);
      assert conds[..i + 1] == conds[..i] + [cond];
      if !cond.JObj? {
        CompileAllConcat(conds[..i + 1], conds[i + 1..]);
        assert conds[..i + 1] + conds[i + 1..] == conds;
        return Failure(NonObjectCondition);
      }
      var field := Get(cond.fields, "field");
      var opText := GetOr(cond.fields, "operator", JStr(""));
      if !opText.JStr? {
        CompileAllConcat(conds[..i + 1], conds[i + 1..]);
        assert conds[..i + 1] + conds[i + 1..] == conds;
        return Failure(NonTextOperator);
      }
      var op := Lower(opText.s);
      var value := Get(cond.fields, "value");
      assert CompileAll(conds[..i + 1]) == Then(Success(filterConditions), CompileAll([cond]));
      assert filterConditions + [] == filterConditions;
      if !Truthy(field) || SupportedOperator(op).None? || value == JNull {
        i := i + 1;
        continue;
      }
      if op == "eq" {
        filterConditions := filterConditions + [Cmp(field, Equal, value)];
      } else if op == "neq" {
        filterConditions := filterConditions + [Cmp(field, NotEqual, value)];
      } else if op == "gt" {
        filterConditions := filterConditions + [Cmp(field, GreaterThan, value)];
      } else if op == "gte" {
        filterConditions := filterConditions + [Cmp(field, GreaterOrEqual, value)];
      } else if op == "lt" {
        filterConditions := filterConditions + [Cmp(field, LessThan, value)];
      } else if op == "lte" {
        filterConditions := filterConditions + [Cmp(field, LessOrEqual, value)];
      } else if op == "like" {
        if value.JStr? {
          filterConditions := filterConditions + [Cmp(field, Like, value)];
        }
      }
      i := i + 1;
    }
    assert conds[..i] == conds;
    if filterConditions != [] {
      if operatorType == "or" {
        result := Success(Some(AnyOf(filterConditions)));
      } else {
        result := Success(Some(AllOf(filterConditions)));
      }
    }
  }
}
