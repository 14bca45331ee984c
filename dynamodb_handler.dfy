/**
 * optim/app/services/dynamodb/dynamodb_handler.py: the observation-history
 * codec of the optimiser service. Records are written as DynamoDB items
 * (typed attribute values), read back into plain dictionaries, and projected
 * onto the requested columns to form the X and Y lists of the optimiser.
 * The DynamoDB client is not modelled: what `put_item`, `get_item` and
 * `query` return is passed in.
 */
module DynamoDBHandler {
  import opened Wrappers
  import opened Text

  /** A DynamoDB attribute value: string, number (as decimal text), or another type tag. */
  datatype AttributeValue = S(s: string) | N(n: string) | OtherType

  type Item = map<string, AttributeValue>

  /** A number handed to a writer: a Python `int` or `float`. */
  datatype Number = IntNum(i: int) | FloatNum(f: real)

  /**
   * `str(x)`: integers in decimal; a float's rendering is Python's `repr`,
   * which is not modelled and is given as `floatRepr`.
   */
  function NumberText(x: Number, floatRepr: real -> string): string
  {
    match x
    case IntNum(i) => Itoa(i)
    case FloatNum(f) => floatRepr(f)
  }

  /** A decoded value: a string, an `int`, or a `float` (kept as the decimal text it was read from). */
  datatype Value = Str(s: string) | Int(i: int) | Float(text: string)

  /** Decoding one attribute: kept, dropped (other type tags) or failing (`int()` of a bad literal). */
  datatype Decoded = Keep(v: Value) | Drop | Bad(message: string)

  function DecodeAttribute(a: AttributeValue): (d: Decoded)
    ensures a.S? ==> d == Keep(Str(a.s))
    ensures a.OtherType? ==> d == Drop
    ensures a.N? && '.' in a.n ==> d == Keep(Float(a.n))
    ensures a.N? && '.' !in a.n ==> (d.Keep? <==> ParseInt(a.n).Some?)
    ensures d.Keep? && a.N? && '.' !in a.n ==> d.v == Int(ParseInt(a.n).value)
  {
    match a
    case S(s) => Keep(Str(s))
    case N(n) =>
      if '.' in n then Keep(Float(n))
      else (match ParseInt(n)
            case Some(i) => Keep(Int(i))
            case None => Bad("invalid literal for int() with base 10: '" + n + "'"))
    case OtherType => Drop
  }

  /** `message` is the `int()` failure of one of the item's number attributes. */
  predicate BadLiteralIn(item: Item, message: string)
  {
    exists k :: k in item && DecodeAttribute(item[k]) == Bad(message)
  }

  /** An item decodes without error when none of its number attributes is a bad integer literal. */
  predicate Decodable(item: Item)
  {
    forall k :: k in item ==> !DecodeAttribute(item[k]).Bad?
  }

  /** The dictionary an item decodes to: every S and N attribute under its own key, the others dropped. */
  function DecodedItem(item: Item): (d: map<string, Value>)
    ensures d.Keys <= item.Keys
    ensures forall k :: k in item && item[k].S? ==> k in d && d[k] == Str(item[k].s)
    ensures forall k :: k in item && item[k].OtherType? ==> k !in d
  {
    map k | k in item && DecodeAttribute(item[k]).Keep? :: DecodeAttribute(item[k]).v
  }

  /**
   * `_convert_dynamodb_item_to_dict`: the attributes are visited one at a
   * time; the first bad integer literal raises.
   */
  method ConvertItem(item: Item) returns (r: Result<map<string, Value>, string>)
    ensures r.Ok? <==> Decodable(item)
    ensures r.Ok? ==> r.value == DecodedItem(item)
    ensures r.Failure? ==> BadLiteralIn(item, r.error)
    ensures item == map[] ==> r == Ok(map[])
  {
    if item == map[] {
      return Ok(map[]);
    }
    var converted: map<string, Value> := map[];
    var remaining := item.Keys;
    while remaining != {}
      invariant remaining <= item.Keys
      invariant forall k :: k in item && k !in remaining ==> !DecodeAttribute(item[k]).Bad?
      invariant converted == map k | k in item && k !in remaining && DecodeAttribute(item[k]).Keep? :: DecodeAttribute(item[k]).v
      decreases remaining
    {
      var key :| key in remaining;
      var d := DecodeAttribute(item[key]);
      if d.Bad? {
        return Failure(d.message);
      }
      if d.Keep? {
        converted := converted[key := d.v];
      }
      remaining := remaining - {key};
    }
    return Ok(converted);
  }

  /** `_convert_dynamodb_items_to_list`: every item converted, in order. */
  method ConvertItems(items: seq<Item>) returns (r: Result<seq<map<string, Value>>, string>)
    ensures r.Ok? <==> forall i :: 0 <= i < |items| ==> Decodable(items[i])
    ensures r.Ok? ==> |r.value| == |items| && forall i :: 0 <= i < |items| ==> r.value[i] == DecodedItem(items[i])
    ensures r.Failure? ==> exists i :: 0 <= i < |items| && BadLiteralIn(items[i], r.error)
  {
    var out: seq<map<string, Value>> := [];
    var i := 0;
    while i < |items|
      invariant 0 <= i <= |items|
      invariant |out| == i
      invariant forall j :: 0 <= j < i ==> Decodable(items[j]) && out[j] == DecodedItem(items[j])
    {
      var c := ConvertItem(items[i]);
      if c.Failure? {
        return Failure(c.error);
      }
      out := out + [c.value];
      i := i + 1;
    }
    return Ok(out);
  }

  /** Writing a decimal integer and reading it back gives the integer; a float's text comes back as it was written. */
  lemma NumberRoundTrip(x: Number, floatRepr: real -> string)
    requires x.FloatNum? ==> '.' in floatRepr(x.f)
    ensures x.IntNum? ==> DecodeAttribute(N(NumberText(x, floatRepr))) == Keep(Int(x.i))
    ensures x.FloatNum? ==> DecodeAttribute(N(NumberText(x, floatRepr))) == Keep(Float(floatRepr(x.f)))
  {
    if x.IntNum? {
      ItoaHasNoDot(x.i);
      ParseItoa(x.i);
    }
  }

  /** The attribute of an optional number: present with its decimal text exactly when given. */
  predicate OptionalNumber(item: Item, key: string, x: Option<Number>, floatRepr: real -> string)
  {
    (key in item <==> x.Some?) && (x.Some? ==> item[key] == N(NumberText(x.value, floatRepr)))
  }

  predicate OptionalString(item: Item, key: string, x: Option<string>)
  {
    (key in item <==> x.Some?) && (x.Some? ==> item[key] == S(x.value))
  }

  /** The prefixes of the errors the two writes raise when the client fails. */
  const RoundPutFailure := "ラウンドデータの追加に失敗しました: "
  const SessionPutFailure := "セッションデータの追加に失敗しました: "

  /** The error a write raises: the client's error behind the operation's prefix, or none. */
  function PutOutcome(prefix: string, clientErr: Option<string>): (err: Option<string>)
    ensures err.None? <==> clientErr.None?
    ensures err.Some? ==> err.value == prefix + clientErr.value
  {
    if clientErr.Some? then Some(prefix + clientErr.value) else None
  }

  /**
   * `put_round_data`: the key attributes `user_id` and `time` always, each
   * optional attribute exactly when its argument is given; the item is then
   * written (`put` gives the client's error, if any).
   */
  method PutRoundData(userId: string, time: string, workTime: Option<Number>, breakTime: Option<Number>,
                      focusScore: Option<Number>, timestamp: Option<string>,
                      floatRepr: real -> string, put: Item -> Option<string>)
    returns (item: Item, err: Option<string>)
    ensures item.Keys <= {"user_id", "time", "work_time", "break_time", "focus_score", "timestamp"}
    ensures "user_id" in item && item["user_id"] == S(userId)
    ensures "time" in item && item["time"] == S(time)
    ensures OptionalNumber(item, "work_time", workTime, floatRepr)
    ensures OptionalNumber(item, "break_time", breakTime, floatRepr)
    ensures OptionalNumber(item, "focus_score", focusScore, floatRepr)
    ensures OptionalString(item, "timestamp", timestamp)
    ensures err.None? <==> put(item).None?
    ensures err.Some? ==> err.value == RoundPutFailure + put(item).value
  {
    item := map["user_id" := S(userId), "time" := S(time)];
    if workTime.Some? {
      item := item["work_time" := N(NumberText(workTime.value, floatRepr))];
    }
    if breakTime.Some? {
      item := item["break_time" := N(NumberText(breakTime.value, floatRepr))];
    }
    if focusScore.Some? {
      item := item["focus_score" := N(NumberText(focusScore.value, floatRepr))];
    }
    if timestamp.Some? {
      item := item["timestamp" := S(timestamp.value)];
    }
    err := PutOutcome(RoundPutFailure, put(item));
  }

  /** The attribute names of a session record are pairwise distinct. */
  lemma SessionKeysDistinct()
    ensures "user_id" != "time"
         && "user_id" != "round_count"
         && "user_id" != "break_time"
         && "user_id" != "avg_focus_score"
         && "user_id" != "total_work_time"
         && "user_id" != "timestamp"
         && "time" != "round_count"
         && "time" != "break_time"
         && "time" != "avg_focus_score"
         && "time" != "total_work_time"
         && "time" != "timestamp"
         && "round_count" != "break_time"
         && "round_count" != "avg_focus_score"
         && "round_count" != "total_work_time"
         && "round_count" != "timestamp"
         && "break_time" != "avg_focus_score"
         && "break_time" != "total_work_time"
         && "break_time" != "timestamp"
         && "avg_focus_score" != "total_work_time"
         && "avg_focus_score" != "timestamp"
         && "total_work_time" != "timestamp"
  {
  }

  /** `put_session_data`: the same rule for the session attributes. */
  method PutSessionData(userId: string, time: string, roundCount: Option<int>, breakTime: Option<Number>,
                        avgFocusScore: Option<Number>, totalWorkTime: Option<Number>, timestamp: Option<string>,
                        floatRepr: real -> string, put: Item -> Option<string>)
    returns (item: Item, err: Option<string>)
    ensures item.Keys <= {"user_id", "time", "round_count", "break_time", "avg_focus_score", "total_work_time", "timestamp"}
    ensures "user_id" in item && item["user_id"] == S(userId)
    ensures "time" in item && item["time"] == S(time)
    ensures ("round_count" in item <==> roundCount.Some?) && (roundCount.Some? ==> item["round_count"] == N(Itoa(roundCount.value)))
    ensures OptionalNumber(item, "break_time", breakTime, floatRepr)
    ensures OptionalNumber(item, "avg_focus_score", avgFocusScore, floatRepr)
    ensures OptionalNumber(item, "total_work_time", totalWorkTime, floatRepr)
    ensures OptionalString(item, "timestamp", timestamp)
    ensures err.None? <==> put(item).None?
    ensures err.Some? ==> err.value == SessionPutFailure + put(item).value
  {
    SessionKeysDistinct();
    item := map["user_id" := S(userId), "time" := S(time)];
    if roundCount.Some? {
      item := item["round_count" := N(Itoa(roundCount.value))];
    }
    if breakTime.Some? {
      item := item["break_time" := N(NumberText(breakTime.value, floatRepr))];
    }
    if avgFocusScore.Some? {
      item := item["avg_focus_score" := N(NumberText(avgFocusScore.value, floatRepr))];
    }
    if totalWorkTime.Some? {
      item := item["total_work_time" := N(NumberText(totalWorkTime.value, floatRepr))];
    }
    if timestamp.Some? {
      item := item["timestamp" := S(timestamp.value)];
    }
    err := PutOutcome(SessionPutFailure, put(item));
  }

  /** A written round record reads back with its integers and strings intact. */
  lemma RoundRecordReadsBack(item: Item, userId: string, time: string, workTime: Option<Number>,
                             focusScore: Option<Number>, timestamp: Option<string>, floatRepr: real -> string)
    requires "user_id" in item && item["user_id"] == S(userId)
    requires "time" in item && item["time"] == S(time)
    requires OptionalNumber(item, "work_time", workTime, floatRepr)
    requires OptionalNumber(item, "focus_score", focusScore, floatRepr)
    requires OptionalString(item, "timestamp", timestamp)
    requires workTime.Some? && workTime.value.IntNum?
    requires focusScore.Some? && focusScore.value.IntNum?
    ensures var d := DecodedItem(item);
            d["user_id"] == Str(userId) && d["time"] == Str(time)
            && "work_time" in d && d["work_time"] == Int(workTime.value.i)
            && "focus_score" in d && d["focus_score"] == Int(focusScore.value.i)
            && ("timestamp" in d <==> timestamp.Some?)
  {
    NumberRoundTrip(workTime.value, floatRepr);
    NumberRoundTrip(focusScore.value, floatRepr);
  }

  /** The values of the requested columns present in a row, in column order (`[d.get(c) for c in columns if c in d]`). */
  function Project(d: map<string, Value>, columns: seq<string>): (r: seq<Value>)
    ensures |r| <= |columns|
  {
    if columns == [] then []
    else if columns[0] in d then [d[columns[0]]] + Project(d, columns[1..])
    else Project(d, columns[1..])
  }

  /** A projection is empty exactly when no requested column is present. */
  lemma {:induction false} ProjectEmpty(d: map<string, Value>, columns: seq<string>)
    ensures Project(d, columns) == [] <==> forall i :: 0 <= i < |columns| ==> columns[i] !in d
  {
    if columns != [] {
      ProjectEmpty(d, columns[1..]);
      assert forall i :: 1 <= i < |columns| ==> columns[i] == columns[1..][i - 1];
    }
  }

  /** When every requested column is present, the row holds exactly their values, in column order. */
  lemma {:induction false} ProjectAllPresent(d: map<string, Value>, columns: seq<string>)
    requires forall i :: 0 <= i < |columns| ==> columns[i] in d
    ensures |Project(d, columns)| == |columns|
    ensures forall i :: 0 <= i < |columns| ==> Project(d, columns)[i] == d[columns[i]]
  {
    if columns != [] {
      ProjectAllPresent(d, columns[1..]);
      assert forall i :: 1 <= i < |columns| ==> columns[i] == columns[1..][i - 1];
    }
  }

  /** The rows of every item with at least one requested column (the reference for the row loop). */
  function ChosenRows(items: seq<map<string, Value>>, columns: seq<string>): (rows: seq<seq<Value>>)
    ensures |rows| <= |items|
    ensures forall i :: 0 <= i < |rows| ==> rows[i] != []
  {
    if items == [] then []
    else
      var row := Project(items[0], columns);
      (if row != [] then [row] else []) + ChosenRows(items[1..], columns)
  }

  /** `[row[0] for row in result if row]`: the flattening for a single column. */
  function Heads(rows: seq<seq<Value>>): (r: seq<Value>)
    ensures |r| <= |rows|
  {
    if rows == [] then []
    else if rows[0] != [] then [rows[0][0]] + Heads(rows[1..])
    else Heads(rows[1..])
  }

  /** The values of one column over the items that have it, in item order. */
  function ColumnValues(items: seq<map<string, Value>>, c: string): seq<Value>
  {
    if items == [] then []
    else if c in items[0] then [items[0][c]] + ColumnValues(items[1..], c)
    else ColumnValues(items[1..], c)
  }

  lemma HeadsCons(row: seq<Value>, rest: seq<seq<Value>>)
    requires row != []
    ensures Heads([row] + rest) == [row[0]] + Heads(rest)
  {
    assert ([row] + rest)[1..] == rest;
  }

  /** With a single column, the flattened rows are that column's values, one per item that has it. */
  lemma {:induction false} SingleColumnFlattens(items: seq<map<string, Value>>, c: string)
    ensures Heads(ChosenRows(items, [c])) == ColumnValues(items, c)
  {
    if items != [] {
      SingleColumnFlattens(items[1..], c);
      var rest := ChosenRows(items[1..], [c]);
      assert [c][1..] == [];
      if c in items[0] {
        assert Project(items[0], [c]) == [items[0][c]];
        assert ChosenRows(items, [c]) == [[items[0][c]]] + rest;
        HeadsCons([items[0][c]], rest);
      } else {
        assert Project(items[0], [c]) == [];
        assert ChosenRows(items, [c]) == rest;
      }
    }
  }

  /** When every item has every requested column (at least one), there is one full row per item. */
  lemma {:induction false} AllPresentKeepsEveryItem(items: seq<map<string, Value>>, columns: seq<string>)
    requires columns != []
    requires forall i, j :: 0 <= i < |items| && 0 <= j < |columns| ==> columns[j] in items[i]
    ensures |ChosenRows(items, columns)| == |items|
    ensures forall i :: 0 <= i < |items| ==> ChosenRows(items, columns)[i] == Project(items[i], columns)
  {
    if items != [] {
      ProjectAllPresent(items[0], columns);
      AllPresentKeepsEveryItem(items[1..], columns);
      assert forall i :: 1 <= i < |items| ==> items[i] == items[1..][i - 1];
    }
  }

  /**
   * The result of `make_chosen_*`: a one-dimensional list of values, a list
   * of rows, or a bare value (a single column read for one `time`).
   */
  datatype Output = Values(vs: seq<Value>) | Rows(rows: seq<seq<Value>>) | Bare(v: Value)

  /** The row loop of the all-items branch. */
  method CollectRows(items: seq<map<string, Value>>, columns: seq<string>) returns (result: seq<seq<Value>>)
    ensures result == ChosenRows(items, columns)
  {
    result := [];
    var i := |items|;
    while i > 0
      invariant 0 <= i <= |items|
      invariant result == ChosenRows(items[i..], columns)
    {
      i := i - 1;
      var row := Project(items[i], columns);
      assert items[i..][1..] == items[i + 1..];
      if row != [] {
        result := [row] + result;
      }
    }
    assert items[0..] == items;
  }

  /** Python's truthiness of the optional `time` argument: absent and "" are both false. */
  predicate Truthy(time: Option<string>) { time.Some? && time.value != "" }

  /**
   * `make_chosen_data_list` / `make_chosen_session_data_list`, one body with
   * the error prefix of each. `one` is what `get_item` gave for `time`,
   * `all` what `query` gave for the user; a failure of either, or of the
   * conversion, is re-raised with the prefix.
   */
  method MakeChosen(columns: seq<string>, time: Option<string>, one: Result<Option<Item>, string>,
                    all: Result<seq<Item>, string>, prefix: string)
    returns (r: Result<Output, string>)
    ensures r.Failure? ==> HasPrefix(r.error, prefix)
    ensures Truthy(time) && one.Ok? && (one.value.None? || one.value.value == map[]) ==> r == Ok(Values([]))
    ensures Truthy(time) && one.Ok? && one.value.Some? && Decodable(one.value.value) ==>
              var row := Project(DecodedItem(one.value.value), columns);
              r == Ok(if |columns| == 1 && row != [] then Bare(row[0]) else Values(row))
    ensures !Truthy(time) && all.Ok? && all.value == [] ==> r == Ok(Values([]))
    ensures !Truthy(time) && all.Ok? && all.value != [] && (forall i :: 0 <= i < |all.value| ==> Decodable(all.value[i])) ==>
              var rows := ChosenRows(seq(|all.value|, i requires 0 <= i < |all.value| => DecodedItem(all.value[i])), columns);
              r == Ok(if |columns| == 1 then Values(Heads(rows)) else Rows(rows))
    ensures Truthy(time) && one.Failure? ==> r == Failure(prefix + one.error)
    ensures !Truthy(time) && all.Failure? ==> r == Failure(prefix + all.error)
    ensures Truthy(time) && one.Ok? && one.value.Some? && !Decodable(one.value.value) ==>
              r.Failure? && exists m :: BadLiteralIn(one.value.value, m) && r.error == prefix + m
    ensures !Truthy(time) && all.Ok? && (exists i :: 0 <= i < |all.value| && !Decodable(all.value[i])) ==>
              r.Failure? && exists i, m :: 0 <= i < |all.value| && BadLiteralIn(all.value[i], m) && r.error == prefix + m
  {
    if Truthy(time) {
      if one.Failure? {
        return Failure(prefix + one.error);
      }
      if one.value.None? || one.value.value == map[] {
        if one.value.Some? {
          ProjectEmpty(DecodedItem(one.value.value), columns);
        }
        return Ok(Values([]));
      }
      var converted := ConvertItem(one.value.value);
      if converted.Failure? {
        return Failure(prefix + converted.error);
      }
      var result := Project(converted.value, columns);
      if |columns| == 1 && result != [] {
        return Ok(Bare(result[0]));
      }
      return Ok(Values(result));
    } else {
      if all.Failure? {
        return Failure(prefix + all.error);
      }
      if all.value == [] {
        return Ok(Values([]));
      }
      var converted := ConvertItems(all.value);
      if converted.Failure? {
        return Failure(prefix + converted.error);
      }
      assert converted.value == seq(|all.value|, i requires 0 <= i < |all.value| => DecodedItem(all.value[i]));
      var result := CollectRows(converted.value, columns);
      if |columns| == 1 {
        return Ok(Values(Heads(result)));
      }
      return Ok(Rows(result));
    }
  }

  const RoundListFailedPrefix := "データのリスト化に失敗しました: "
  const SessionListFailedPrefix := "セッションデータのリスト化に失敗しました: "

  /**
   * For one `time` and one column, the result is the column's value itself,
   * not a one-element list as the all-items branch gives for the same row.
   */
  lemma SingleColumnAtTimeIsBare(d: map<string, Value>, c: string)
    requires c in d
    ensures var row := Project(d, [c]);
            (if |[c]| == 1 && row != [] then Bare(row[0]) else Values(row)) == Bare(d[c])
    ensures Values(Heads(ChosenRows([d], [c]))) == Values([d[c]])
  {
    SingleColumnFlattens([d], c);
    assert ColumnValues([d], c) == [d[c]];
  }
}
