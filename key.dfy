/**
 * The client-side records of the key API: a `Key` as the server returns it,
 * the `KeyBuilder` that asks for a new key, and the `KeysQuery` that asks for
 * a page of keys. Each mutator changes one field in place and hands back the
 * same object for chaining. Each record has a write view: the JSON object,
 * keyed by camelCase field name, that the serializer puts on the wire.
 */
module Keys {
  import opened Wire
  import opened Actions

  /** How a `Vec<Action>` field is written. */
  function ActionArray(actions: seq<Action>): Json
  {
    JArray(EncodeActions(actions))
  }

  /** Reads an action array back; anything but an array of known tokens fails. */
  function ReadActionArray(j: Json): Option<seq<Action>>
  {
    if j.JArray? then DecodeActions(j.items) else None
  }

  /** A key as the server holds it. */
  class Key {
    var actions: seq<Action>
    var createdAt: OffsetDateTime
    var description: Option<string>
    var name: Option<string>
    var expiresAt: Option<OffsetDateTime>
    var indexes: seq<string>
    var key: string
    var updatedAt: OffsetDateTime

    /** A key record with the given fields, as the server's response yields it. */
    constructor (actions: seq<Action>, createdAt: OffsetDateTime, description: Option<string>,
                 name: Option<string>, expiresAt: Option<OffsetDateTime>, indexes: seq<string>,
                 key: string, updatedAt: OffsetDateTime)
      ensures this.actions == actions && this.createdAt == createdAt
      ensures this.description == description && this.name == name
      ensures this.expiresAt == expiresAt && this.indexes == indexes
      ensures this.key == key && this.updatedAt == updatedAt
    {
      this.actions := actions;
      this.createdAt := createdAt;
      this.description := description;
      this.name := name;
      this.expiresAt := expiresAt;
      this.indexes := indexes;
      this.key := key;
      this.updatedAt := updatedAt;
    }

    /**
     * The string a key stands for wherever an identifier is expected: its
     * secret `key`, never its name or description.
     */
    function AsStr(): (r: string)
      reads this
      ensures r == key
    {
      key
    }

    /**
     * Sets the description and nothing else; in particular the identifying
     * `key` is untouched, so the key still looks up the same resource.
     */
    method WithDescription(desc: string) returns (self: Key)
      modifies this
      ensures self == this
      ensures description == Some(desc)
      ensures actions == old(actions) && createdAt == old(createdAt) && name == old(name)
      ensures expiresAt == old(expiresAt) && indexes == old(indexes)
      ensures key == old(key) && updatedAt == old(updatedAt)
      ensures AsStr() == old(AsStr())
      ensures WriteView() == old(WriteView())["description" := JString(desc)]
    {
      description := Some(desc);
      self := this;
    }

    /** Sets the name and nothing else; the identifying `key` is untouched. */
    method WithName(n: string) returns (self: Key)
      modifies this
      ensures self == this
      ensures name == Some(n)
      ensures actions == old(actions) && createdAt == old(createdAt) && description == old(description)
      ensures expiresAt == old(expiresAt) && indexes == old(indexes)
      ensures key == old(key) && updatedAt == old(updatedAt)
      ensures AsStr() == old(AsStr())
      ensures WriteView() == old(WriteView())["name" := JString(n)]
    {
      name := Some(n);
      self := this;
    }

    /**
     * The body of an update request. The server-managed fields (`key`,
     * `createdAt`, `updatedAt`) are never written; empty `actions` and
     * `indexes` are left out; `description`, `name` and `expiresAt` are always
     * written, as null when absent.
     */
    function WriteView(): (m: map<string, Json>)
      reads this
      ensures "key" !in m && "createdAt" !in m && "updatedAt" !in m
      ensures m.Keys <= {"actions", "description", "name", "expiresAt", "indexes"}
      ensures "actions" in m <==> actions != []
      ensures "actions" in m ==> ReadActionArray(m["actions"]) == Some(actions)
      ensures "indexes" in m <==> indexes != []
      ensures "indexes" in m ==> m["indexes"] == StringArray(indexes)
      ensures "description" in m && "name" in m && "expiresAt" in m
      ensures m["description"] == JNull <==> description == None
      ensures description.Some? ==> m["description"] == JString(description.value)
      ensures m["name"] == JNull <==> name == None
      ensures name.Some? ==> m["name"] == JString(name.value)
      ensures m["expiresAt"] == JNull <==> expiresAt == None
      ensures expiresAt.Some? ==> m["expiresAt"] == JTimestamp(expiresAt.value)
    {
      DecodeEncodeActions(actions);
      var always := map[
        "description" := OptionalString(description),
        "name" := OptionalString(name),
        "expiresAt" := OptionalTimestamp(expiresAt)];
      var withActions := if actions == [] then always else always["actions" := ActionArray(actions)];
      if indexes == [] then withActions else withActions["indexes" := StringArray(indexes)]
    }
  }

  /**
   * Two keys that agree on their client-editable fields write the same update
   * body, whatever their server-managed `key`, `createdAt` and `updatedAt`.
   */
  lemma WriteViewIgnoresServerFields(k1: Key, k2: Key)
    requires k1.actions == k2.actions && k1.indexes == k2.indexes
    requires k1.description == k2.description && k1.name == k2.name
    requires k1.expiresAt == k2.expiresAt
    ensures k1.WriteView() == k2.WriteView()
  {
  }

  /** The request that creates a key: a `Key` without the server-managed fields. */
  class KeyBuilder {
    var actions: seq<Action>
    var description: Option<string>
    var expiresAt: Option<OffsetDateTime>
    var indexes: seq<string>

    /** An empty request: no actions, no indexes, no description, no expiry. */
    constructor ()
      ensures actions == [] && description == None && expiresAt == None && indexes == []
    {
      actions := [];
      description := None;
      expiresAt := None;
      indexes := [];
    }

    /** Appends the given actions in order; existing entries and duplicates stay. */
    method WithActions(given: seq<Action>) returns (self: KeyBuilder)
      modifies this
      ensures self == this
      ensures actions == old(actions) + given
      ensures description == old(description) && expiresAt == old(expiresAt) && indexes == old(indexes)
    {
      actions := actions + given;
      self := this;
    }

    /** Appends one action at the end, even when it is already present. */
    method WithAction(action: Action) returns (self: KeyBuilder)
      modifies this
      ensures self == this
      ensures actions == old(actions) + [action]
      ensures description == old(description) && expiresAt == old(expiresAt) && indexes == old(indexes)
    {
      actions := actions + [action];
      self := this;
    }

    /** Sets the expiry, replacing any earlier one. */
    method WithExpiresAt(at: OffsetDateTime) returns (self: KeyBuilder)
      modifies this
      ensures self == this
      ensures expiresAt == Some(at)
      ensures actions == old(actions) && description == old(description) && indexes == old(indexes)
    {
      expiresAt := Some(at);
      self := this;
    }

    /** Replaces the whole index list; what was there before is gone. */
    method WithIndexes(given: seq<string>) returns (self: KeyBuilder)
      modifies this
      ensures self == this
      ensures indexes == given
      ensures actions == old(actions) && description == old(description) && expiresAt == old(expiresAt)
    {
      indexes := given;
      self := this;
    }

    /** Appends one index pattern at the end of the existing list. */
    method WithIndex(index: string) returns (self: KeyBuilder)
      modifies this
      ensures self == this
      ensures indexes == old(indexes) + [index]
      ensures actions == old(actions) && description == old(description) && expiresAt == old(expiresAt)
    {
      indexes := indexes + [index];
      self := this;
    }

    /**
     * The body of a create request. Nothing is skipped: all four fields are
     * always written, empty lists as empty arrays and absent values as null.
     */
    function WriteView(): (m: map<string, Json>)
      reads this
      ensures m.Keys == {"actions", "description", "expiresAt", "indexes"}
      ensures m["actions"].JArray? && |m["actions"].items| == |actions|
      ensures ReadActionArray(m["actions"]) == Some(actions)
      ensures m["indexes"] == StringArray(indexes)
      ensures m["description"] == JNull <==> description == None
      ensures description.Some? ==> m["description"] == JString(description.value)
      ensures m["expiresAt"] == JNull <==> expiresAt == None
      ensures expiresAt.Some? ==> m["expiresAt"] == JTimestamp(expiresAt.value)
    {
      DecodeEncodeActions(actions);
      map[
        "actions" := ActionArray(actions),
        "description" := OptionalString(description),
        "expiresAt" := OptionalTimestamp(expiresAt),
        "indexes" := StringArray(indexes)]
    }
  }

  /** A request for one page of keys, bound to the client that will send it. */
  class KeysQuery {
    const client: Client
    var offset: Option<Usize>
    var limit: Option<Usize>

    /** A query with neither offset nor limit set. */
    constructor (client: Client)
      ensures this.client == client
      ensures offset == None && limit == None
    {
      this.client := client;
      offset := None;
      limit := None;
    }

    /** Sets the number of keys to skip, replacing any earlier value. */
    method WithOffset(n: Usize) returns (self: KeysQuery)
      modifies this
      ensures self == this
      ensures offset == Some(n) && limit == old(limit)
    {
      offset := Some(n);
      self := this;
    }

    /** Sets the largest number of keys to return, replacing any earlier value. */
    method WithLimit(n: Usize) returns (self: KeysQuery)
      modifies this
      ensures self == this
      ensures limit == Some(n) && offset == old(offset)
    {
      limit := Some(n);
      self := this;
    }

    /**
     * The query parameters sent. The client is never written; `offset` and
     * `limit` are written exactly when set.
     */
    function WriteView(): (m: map<string, Json>)
      reads this
      ensures "client" !in m
      ensures m.Keys <= {"offset", "limit"}
      ensures "offset" in m <==> offset.Some?
      ensures offset.Some? ==> m["offset"] == JNumber(offset.value as int)
      ensures "limit" in m <==> limit.Some?
      ensures limit.Some? ==> m["limit"] == JNumber(limit.value as int)
    {
      var withOffset := if offset.Some? then map["offset" := JNumber(offset.value as int)] else map[];
      if limit.Some? then withOffset["limit" := JNumber(limit.value as int)] else withOffset
    }
  }
}
