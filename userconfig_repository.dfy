/**
 * backend/internal/infrastructure/repository/dynamodb/userconfig_repository.go:
 * user configurations in a DynamoDB table keyed by `user_id`, encoded and
 * decoded by hand. The table is the map `items` from key to item; the
 * conditional writes (`attribute_not_exists` / `attribute_exists`) are
 * evaluated against it. A failure of the DynamoDB client other than a failed
 * condition is the parameter `fail` (its message). `time.Format(RFC3339)` and
 * `time.Parse(RFC3339, ·)` are the parameters `format` and `parse`.
 */
module UserConfigRepository {
  import opened Wrappers
  import opened Text
  import opened GoErrors
  import opened Uuids
  import opened DynamoDBHandler
  import opened UserConfigs

  const NotFound := Leaf(DynamoConfig(DynUserConfigNotFound))
  const AlreadyExistsText := "ユーザー設定は既に存在します"
  const DoesNotExistText := "ユーザー設定が存在しません"
  const GetErrorPrefix := "ユーザー設定取得エラー: "

  /** `fmt.Errorf("%w: %v", sentinel, err)`: the sentinel stays on the chain, the client error is only text. */
  function FailedWith(s: DynamoConfigSentinel, message: string): (e: Error)
    ensures forall t :: Is(e, t) <==> t == DynamoConfig(s)
    ensures Render(e) == SentinelText(DynamoConfig(s)) + ": " + message
  {
    Wrapped("", Leaf(DynamoConfig(s)), ": " + message)
  }

  /** The seven attributes a configuration is stored as; the numbers in decimal. */
  function EncodeItem(c: UserConfigRecord, format: int -> string): (item: Item)
    ensures item.Keys == {"user_id", "round_work_time", "round_break_time", "session_rounds",
                          "session_break_time", "created_at", "updated_at"}
    ensures item["user_id"] == S(c.userID)
    ensures item["round_work_time"] == N(Itoa(c.roundWorkTime))
    ensures item["round_break_time"] == N(Itoa(c.roundBreakTime))
    ensures item["session_rounds"] == N(Itoa(c.sessionRounds))
    ensures item["session_break_time"] == N(Itoa(c.sessionBreakTime))
    ensures item["created_at"] == S(format(c.createdAt)) && item["updated_at"] == S(format(c.updatedAt))
  {
    map["user_id" := S(c.userID),
        "round_work_time" := N(Itoa(c.roundWorkTime)),
        "round_break_time" := N(Itoa(c.roundBreakTime)),
        "session_rounds" := N(Itoa(c.sessionRounds)),
        "session_break_time" := N(Itoa(c.sessionBreakTime)),
        "created_at" := S(format(c.createdAt)),
        "updated_at" := S(format(c.updatedAt))]
  }

  /** A number attribute that `strconv.Atoi` accepts; anything else is ignored. */
  function IntAttr(item: Item, name: string): (v: Option<int>)
    ensures v.Some? ==> name in item && item[name].N? && ParseInt(item[name].n) == v
    ensures name in item && item[name].N? ==> v == ParseInt(item[name].n)
  {
    if name in item && item[name].N? then ParseInt(item[name].n) else None
  }

  /** A string attribute that parses as an RFC 3339 instant; anything else is ignored. */
  function TimeAttr(item: Item, name: string, parse: string -> Option<int>): (v: Option<int>)
    ensures v.Some? ==> name in item && item[name].S? && parse(item[name].s) == v
    ensures name in item && item[name].S? ==> v == parse(item[name].s)
  {
    if name in item && item[name].S? then parse(item[name].s) else None
  }

  function OrElse(v: Option<int>, zero: int): int
  {
    if v.Some? then v.value else zero
  }

  /**
   * What `GetUserConfig` makes of a stored item: each attribute that is
   * present, of the right type and parseable, over the zero configuration.
   */
  function DecodeItem(item: Item, parse: string -> Option<int>): (c: UserConfigRecord)
    ensures "user_id" in item && item["user_id"].S? ==> c.userID == item["user_id"].s
    ensures !("user_id" in item && item["user_id"].S?) ==> c.userID == ""
    ensures IntAttr(item, "round_work_time").Some? ==> c.roundWorkTime == IntAttr(item, "round_work_time").value
    ensures IntAttr(item, "round_work_time").None? ==> c.roundWorkTime == 0
    ensures IntAttr(item, "round_break_time").Some? ==> c.roundBreakTime == IntAttr(item, "round_break_time").value
    ensures IntAttr(item, "round_break_time").None? ==> c.roundBreakTime == 0
    ensures IntAttr(item, "session_rounds").Some? ==> c.sessionRounds == IntAttr(item, "session_rounds").value
    ensures IntAttr(item, "session_rounds").None? ==> c.sessionRounds == 0
    ensures IntAttr(item, "session_break_time").Some? ==> c.sessionBreakTime == IntAttr(item, "session_break_time").value
    ensures IntAttr(item, "session_break_time").None? ==> c.sessionBreakTime == 0
    ensures TimeAttr(item, "created_at", parse).Some? ==> c.createdAt == TimeAttr(item, "created_at", parse).value
    ensures TimeAttr(item, "created_at", parse).None? ==> c.createdAt == ZeroTime
    ensures TimeAttr(item, "updated_at", parse).Some? ==> c.updatedAt == TimeAttr(item, "updated_at", parse).value
    ensures TimeAttr(item, "updated_at", parse).None? ==> c.updatedAt == ZeroTime
  {
    UserConfigRecord(
      if "user_id" in item && item["user_id"].S? then item["user_id"].s else "",
      OrElse(IntAttr(item, "round_work_time"), 0),
      OrElse(IntAttr(item, "round_break_time"), 0),
      OrElse(IntAttr(item, "session_rounds"), 0),
      OrElse(IntAttr(item, "session_break_time"), 0),
      OrElse(TimeAttr(item, "created_at", parse), ZeroTime),
      OrElse(TimeAttr(item, "updated_at", parse), ZeroTime))
  }

  /** Decoding undoes encoding, provided the time parser undoes the time formatter. */
  lemma DecodeEncode(c: UserConfigRecord, format: int -> string, parse: string -> Option<int>)
    requires forall t :: parse(format(t)) == Some(t)
    ensures DecodeItem(EncodeItem(c, format), parse) == c
  {
    var item := EncodeItem(c, format);
    ParseItoa(c.roundWorkTime);
    ParseItoa(c.roundBreakTime);
    ParseItoa(c.sessionRounds);
    ParseItoa(c.sessionBreakTime);
    assert parse(format(c.createdAt)) == Some(c.createdAt);
    assert parse(format(c.updatedAt)) == Some(c.updatedAt);
  }

  /** `CreateUserConfig`'s error: the client failure, else the existing key, else none. */
  function CreateError(present: bool, fail: Option<string>): (e: Option<Error>)
    ensures fail.Some? ==> e == Some(FailedWith(DynUserConfigCreateFailed, fail.value))
    ensures fail.None? ==> (e.None? <==> !present)
    ensures fail.None? && present ==> e == Some(Opaque(AlreadyExistsText))
  {
    if fail.Some? then Some(FailedWith(DynUserConfigCreateFailed, fail.value))
    else if present then Some(Opaque(AlreadyExistsText))
    else None
  }

  /** `UpdateUserConfig`'s error: the client failure, else a missing key, else none. */
  function UpdateError(present: bool, fail: Option<string>): (e: Option<Error>)
    ensures fail.Some? ==> e == Some(FailedWith(DynUserConfigUpdateFailed, fail.value))
    ensures fail.None? ==> (e.None? <==> present)
    ensures fail.None? && !present ==> e == Some(Opaque(DoesNotExistText))
  {
    if fail.Some? then Some(FailedWith(DynUserConfigUpdateFailed, fail.value))
    else if !present then Some(Opaque(DoesNotExistText))
    else None
  }

  /** `DeleteUserConfig`'s error: the client failure, else a missing key (the local not-found sentinel), else none. */
  function DeleteError(present: bool, fail: Option<string>): (e: Option<Error>)
    ensures fail.Some? ==> e == Some(FailedWith(DynUserConfigDeleteFailed, fail.value))
    ensures fail.None? ==> (e.None? <==> present)
    ensures fail.None? && !present ==> e == Some(NotFound)
  {
    if fail.Some? then Some(FailedWith(DynUserConfigDeleteFailed, fail.value))
    else if !present then Some(NotFound)
    else None
  }

  /** The table. */
  class ConfigTable {
    var items: map<string, Item>

    /** Every item is stored under its own `user_id`. */
    ghost predicate Valid()
      reads this
    {
      forall k :: k in items ==> "user_id" in items[k] && items[k]["user_id"] == S(k)
    }

    constructor ()
      ensures items == map[] && Valid()
    {
      items := map[];
    }

    /** What `GetUserConfig` answers, as a value. */
    function Lookup(userID: Uuid, fail: Option<string>, parse: string -> Option<int>): (r: Result<UserConfigRecord, Error>)
      reads this
      requires Valid()
      ensures fail.Some? ==> r == Failure(Wrapped(GetErrorPrefix, Opaque(fail.value), ""))
      ensures fail.None? && userID !in items ==> r == Failure(NotFound)
      ensures r.Ok? <==> fail.None? && userID in items
      ensures r.Ok? ==> r.value.userID == userID
    {
      if fail.Some? then Failure(Wrapped(GetErrorPrefix, Opaque(fail.value), ""))
      else if userID !in items then Failure(NotFound)
      else Ok(DecodeItem(items[userID], parse))
    }

    /**
     * `GetUserConfig`: a client failure is wrapped, a missing item is the
     * local not-found sentinel, and a found item is decoded field by field
     * into a fresh zero configuration.
     */
    method GetUserConfig(userID: Uuid, fail: Option<string>, parse: string -> Option<int>)
      returns (r: Result<UserConfig, Error>)
      requires Valid()
      ensures r.Failure? ==> Lookup(userID, fail, parse).Failure? && r.error == Lookup(userID, fail, parse).error
      ensures r.Ok? <==> Lookup(userID, fail, parse).Ok?
      ensures r.Ok? ==> fresh(r.value) && r.value.Value() == Lookup(userID, fail, parse).value
    {
      if fail.Some? {
        return Failure(Wrapped(GetErrorPrefix, Opaque(fail.value), ""));
      }
      if userID !in items {
        return Failure(NotFound);
      }
      var item := items[userID];
      ghost var decoded := DecodeItem(item, parse);
      assert Lookup(userID, fail, parse) == Ok(decoded);
      var id, work, rest, rounds, sessionBreak, created, updated := "", 0, 0, 0, 0, ZeroTime, ZeroTime;
      if "user_id" in item && item["user_id"].S? {
        id := item["user_id"].s;
      }
      var v := IntAttr(item, "round_work_time");
      if v.Some? {
        work := v.value;
      }
      v := IntAttr(item, "round_break_time");
      if v.Some? {
        rest := v.value;
      }
      v := IntAttr(item, "session_rounds");
      if v.Some? {
        rounds := v.value;
      }
      v := IntAttr(item, "session_break_time");
      if v.Some? {
        sessionBreak := v.value;
      }
      v := TimeAttr(item, "created_at", parse);
      if v.Some? {
        created := v.value;
      }
      v := TimeAttr(item, "updated_at", parse);
      if v.Some? {
        updated := v.value;
      }
      var config := new UserConfig.FromRecord(UserConfigRecord(id, work, rest, rounds, sessionBreak, created, updated));
      r := Ok(config);
    }

    /** `CreateUserConfig`: a conditional put that refuses an existing key. */
    method CreateUserConfig(config: UserConfig, fail: Option<string>, format: int -> string)
      returns (err: Option<Error>)
      requires Valid()
      modifies this
      ensures Valid()
      ensures err == CreateError(config.userID in old(items), fail)
      ensures err.Some? ==> items == old(items)
      ensures err.None? ==> items == old(items)[config.userID := EncodeItem(config.Value(), format)]
    {
      err := CreateError(config.userID in items, fail);
      if err.None? {
        items := items[config.userID := EncodeItem(config.Value(), format)];
      }
    }

    /**
     * `UpdateUserConfig`: stamps the caller's object with the update time
     * first (whatever follows), then a conditional put that requires the key.
     */
    method UpdateUserConfig(config: UserConfig, fail: Option<string>, now: int, format: int -> string)
      returns (err: Option<Error>)
      requires Valid()
      modifies this, config
      ensures Valid()
      ensures config.Value() == old(config.Value()).(updatedAt := now)
      ensures err == UpdateError(config.userID in old(items), fail)
      ensures err.Some? ==> items == old(items)
      ensures err.None? ==> items == old(items)[config.userID := EncodeItem(config.Value(), format)]
    {
      config.updatedAt := now;
      err := UpdateError(config.userID in items, fail);
      if err.None? {
        items := items[config.userID := EncodeItem(config.Value(), format)];
      }
    }

    /** `DeleteUserConfig`: a conditional delete that requires the key. */
    method DeleteUserConfig(userID: Uuid, fail: Option<string>) returns (err: Option<Error>)
      requires Valid()
      modifies this
      ensures Valid()
      ensures err == DeleteError(userID in old(items), fail)
      ensures err.Some? ==> items == old(items)
      ensures err.None? ==> items == old(items) - {userID} && userID !in items
    {
      err := DeleteError(userID in items, fail);
      if err.None? {
        items := items - {userID};
      }
    }

    /**
     * `GetOrCreateUserConfig`: the stored configuration, or, when there is
     * none, a default one that is created first; other read errors pass through.
     */
    method GetOrCreateUserConfig(userID: Uuid, getFail: Option<string>, putFail: Option<string>,
                                 now: int, parse: string -> Option<int>, format: int -> string)
      returns (r: Result<UserConfig, Error>)
      requires Valid()
      modifies this
      ensures Valid()
      ensures getFail.Some? ==> r == Failure(Wrapped(GetErrorPrefix, Opaque(getFail.value), "")) && items == old(items)
      ensures getFail.None? && userID in old(items)
              ==> r.Ok? && r.value.Value() == DecodeItem(old(items)[userID], parse) && items == old(items)
      ensures getFail.None? && userID !in old(items) && putFail.Some?
              ==> r == Failure(FailedWith(DynUserConfigCreateFailed, putFail.value)) && items == old(items)
      ensures getFail.None? && userID !in old(items) && putFail.None?
              ==> r.Ok? && r.value.Value() == DefaultConfig(userID, now)
                  && items == old(items)[userID := EncodeItem(DefaultConfig(userID, now), format)]
      ensures r.Ok? ==> fresh(r.value)
    {
      var got := GetUserConfig(userID, getFail, parse);
      if getFail.Some? {
        assert !Is(Opaque(getFail.value), DynamoConfig(DynUserConfigNotFound));
      }
      if got.Failure? && !Is(got.error, DynamoConfig(DynUserConfigNotFound)) {
        return Failure(got.error);
      }
      if got.Ok? {
        return got;
      }
      var config := new UserConfig(userID, now);
      var err := CreateUserConfig(config, putFail, format);
      if err.Some? {
        return Failure(err.value);
      }
      r := Ok(config);
    }
  }

  /** A configuration written by `CreateUserConfig` reads back unchanged, given an RFC 3339 round trip. */
  lemma CreateThenLookup(table: ConfigTable, c: UserConfigRecord, format: int -> string, parse: string -> Option<int>)
    requires table.Valid() && Canonical(c.userID)
    requires forall t :: parse(format(t)) == Some(t)
    requires c.userID in table.items && table.items[c.userID] == EncodeItem(c, format)
    ensures table.Lookup(c.userID, None, parse) == Ok(c)
  {
    DecodeEncode(c, format, parse);
  }
}
