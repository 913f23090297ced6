/**
 * Call sequences a client of the key records writes, on freshly built
 * objects, with what each one leaves behind or puts on the wire. They follow
 * from the mutators' contracts alone.
 */
module Scenarios {
  import opened Wire
  import opened Actions
  import opened Keys

  /** A second `with_indexes` discards the first list entirely. */
  method ReplaceIndexesTwice(first: seq<string>, second: seq<string>) returns (indexes: seq<string>)
    ensures indexes == second
  {
    var b := new KeyBuilder();
    b := b.WithIndexes(first);
    b := b.WithIndexes(second);
    indexes := b.indexes;
  }

  /** `with_index` after `with_indexes` extends the replaced list by one. */
  method ReplaceThenAppendIndex(first: seq<string>, extra: string) returns (indexes: seq<string>)
    ensures indexes == first + [extra]
  {
    var b := new KeyBuilder();
    b := b.WithIndex("*");
    b := b.WithIndexes(first);
    b := b.WithIndex(extra);
    indexes := b.indexes;
  }

  /** Adding the same action twice keeps both copies; adding a list keeps its order. */
  method AddActionTwice(action: Action, more: seq<Action>) returns (actions: seq<Action>)
    ensures actions == [action, action] + more
    ensures |actions| == 2 + |more|
  {
    var b := new KeyBuilder();
    b := b.WithAction(action);
    b := b.WithAction(action);
    b := b.WithActions(more);
    actions := b.actions;
  }

  /** A later expiry replaces an earlier one. */
  method ResetExpiry(earlier: OffsetDateTime, later: OffsetDateTime) returns (body: map<string, Json>)
    ensures body == map[
      "actions" := JArray([]),
      "description" := JNull,
      "expiresAt" := JTimestamp(later),
      "indexes" := JArray([])]
  {
    var b := new KeyBuilder();
    b := b.WithExpiresAt(earlier);
    b := b.WithExpiresAt(later);
    body := b.WriteView();
    EncodeDecodeActions(body["actions"].items, []);
    assert body["actions"] == JArray([]);
    assert body["indexes"] == JArray([]);
    assert body["expiresAt"] == JTimestamp(later);
  }

  /**
   * `KeyBuilder::new().with_action(Search).with_index("*")` asks for a search
   * key on every index; nothing else is set, and every field is written.
   */
  method SearchEverywhereRequest() returns (body: map<string, Json>)
    ensures body == map[
      "actions" := JArray([JString("search")]),
      "description" := JNull,
      "expiresAt" := JNull,
      "indexes" := JArray([JString("*")])]
  {
    var b := new KeyBuilder();
    b := b.WithAction(Search);
    b := b.WithIndex("*");
    assert b.actions == [Search] && b.indexes == ["*"];
    body := b.WriteView();
    assert ReadActionArray(body["actions"]) == Some([Search]);
    EncodeDecodeActions(body["actions"].items, [Search]);
    assert EncodeActions([Search]) == [JString("search")];
    assert body["actions"] == JArray([JString("search")]);
    assert StringArray(["*"]) == JArray([JString("*")]);
    assert body["indexes"] == JArray([JString("*")]);
  }

  /**
   * Renaming and describing a key changes only those two entries of its
   * update body, and it still stands for the same key string.
   */
  method EditKey(k: Key, desc: string, n: string) returns (body: map<string, Json>, token: string)
    modifies k
    ensures token == old(k.key)
    ensures body == old(k.WriteView())["description" := JString(desc)]["name" := JString(n)]
  {
    var edited := k.WithDescription(desc);
    edited := edited.WithName(n);
    body := edited.WriteView();
    token := edited.AsStr();
  }

  /** A key whose lists are empty writes only its three optional fields. */
  method BareKeyUpdate(createdAt: OffsetDateTime, updatedAt: OffsetDateTime, secret: string, desc: string)
    returns (body: map<string, Json>)
    ensures body == map["description" := JString(desc), "name" := JNull, "expiresAt" := JNull]
  {
    var k := new Key([], createdAt, None, None, None, [], secret, updatedAt);
    k := k.WithDescription(desc);
    body := k.WriteView();
  }

  /** A query with nothing set sends no parameters at all. */
  method UnpagedQuery(client: Client) returns (params: map<string, Json>)
    ensures params == map[]
  {
    var q := new KeysQuery(client);
    params := q.WriteView();
  }

  /** Setting offset and limit, the later value of each winning, sends both. */
  method PagedQuery(client: Client) returns (params: map<string, Json>)
    ensures params == map["offset" := JNumber(1), "limit" := JNumber(2)]
  {
    var q := new KeysQuery(client);
    q := q.WithLimit(20);
    q := q.WithOffset(1);
    q := q.WithLimit(2);
    params := q.WriteView();
  }
}
