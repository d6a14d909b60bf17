/**
 * The in-memory record store `MemStorage`: users, companions and
 * conversations, each kept in a JavaScript `Map` from id to record, with an
 * auto-increment counter per table. The asynchronous methods are modelled
 * as synchronous ones and the clock as a parameter.
 */
module Storage {
  import opened Wrappers
  import opened Seqs
  import opened OrderedMaps

  /* ---------------- Records ---------------- */

  /** A row of `users`. */
  datatype User = User(id: int, username: string, password: string)

  /** `InsertUser`: a user without its id. */
  datatype InsertUser = InsertUser(username: string, password: string)

  /** A row of `companions`; a column that may be null is an `Option`. */
  datatype Companion = Companion(
    id: int, userId: Option<int>, name: string, description: Option<string>,
    avatarUrl: Option<string>, originalPhotoUrl: Option<string>,
    personality: Option<string>, voiceType: Option<string>, createdAt: string)

  /** `InsertCompanion`: a companion without its id. */
  datatype InsertCompanion = InsertCompanion(
    userId: Option<int>, name: string, description: Option<string>,
    avatarUrl: Option<string>, originalPhotoUrl: Option<string>,
    personality: Option<string>, voiceType: Option<string>, createdAt: string)

  /**
   * `Partial<Companion>`: `Some(v)` for a field the update carries,
   * `None` for a field it leaves out. The id is one of the fields.
   */
  datatype CompanionPatch = CompanionPatch(
    id: Option<int>, userId: Option<Option<int>>, name: Option<string>,
    description: Option<Option<string>>, avatarUrl: Option<Option<string>>,
    originalPhotoUrl: Option<Option<string>>, personality: Option<Option<string>>,
    voiceType: Option<Option<string>>, createdAt: Option<string>)

  /** The role of a chat message. */
  datatype Role = SystemRole | UserRole | AssistantRole

  /** A chat message of a conversation. */
  datatype Message = Message(id: string, role: Role, content: string, timestamp: string)

  /** A row of `conversations`. */
  datatype Conversation = Conversation(id: int, companionId: Option<int>, messages: seq<Message>, updatedAt: string)

  /** `InsertConversation`: a conversation without its id. */
  datatype InsertConversation = InsertConversation(companionId: Option<int>, messages: seq<Message>, updatedAt: string)

  /** The insert form of a stored companion: every field but the id. */
  function WithoutId(c: Companion): InsertCompanion
  {
    InsertCompanion(c.userId, c.name, c.description, c.avatarUrl, c.originalPhotoUrl,
                    c.personality, c.voiceType, c.createdAt)
  }

  /** `{ ...insertCompanion, id }`: the given id and every inserted field, and nothing else. */
  function NewCompanion(c: InsertCompanion, id: int): (r: Companion)
    ensures r.id == id && WithoutId(r) == c
    ensures forall other: Companion :: other.id == id && WithoutId(other) == c ==> other == r
  {
    Companion(id, c.userId, c.name, c.description, c.avatarUrl, c.originalPhotoUrl,
              c.personality, c.voiceType, c.createdAt)
  }

  /** A field after an update: the update's value if it carries one, else the old value. */
  function Overlay<T>(update: Option<T>, current: T): T
  {
    if update.Some? then update.value else current
  }

  /** `after` is `update`'s value when it carries one, and `before` otherwise. */
  predicate Carried<T(==)>(update: Option<T>, before: T, after: T)
  {
    (update.Some? ==> after == update.value) && (update.None? ==> after == before)
  }

  /** `{ ...companion, ...data }`: every field the patch carries replaces the companion's. */
  function Merge(c: Companion, data: CompanionPatch): (r: Companion)
    ensures Carried(data.id, c.id, r.id) && Carried(data.userId, c.userId, r.userId)
    ensures Carried(data.name, c.name, r.name) && Carried(data.description, c.description, r.description)
    ensures Carried(data.avatarUrl, c.avatarUrl, r.avatarUrl)
    ensures Carried(data.originalPhotoUrl, c.originalPhotoUrl, r.originalPhotoUrl)
    ensures Carried(data.personality, c.personality, r.personality)
    ensures Carried(data.voiceType, c.voiceType, r.voiceType) && Carried(data.createdAt, c.createdAt, r.createdAt)
  {
    Companion(
      Overlay(data.id, c.id), Overlay(data.userId, c.userId), Overlay(data.name, c.name),
      Overlay(data.description, c.description), Overlay(data.avatarUrl, c.avatarUrl),
      Overlay(data.originalPhotoUrl, c.originalPhotoUrl), Overlay(data.personality, c.personality),
      Overlay(data.voiceType, c.voiceType), Overlay(data.createdAt, c.createdAt))
  }

  /** The patch that carries no field. */
  const NoChanges: CompanionPatch := CompanionPatch(None, None, None, None, None, None, None, None, None)

  /** An update with an empty patch leaves a companion as it is. */
  lemma MergeNothing(c: Companion)
    ensures Merge(c, NoChanges) == c
  {
  }

  /** Applying the same update twice is applying it once. */
  lemma MergeIdempotent(c: Companion, data: CompanionPatch)
    ensures Merge(Merge(c, data), data) == Merge(c, data)
  {
  }

  /** A patch that carries every field of a companion turns any companion into that one. */
  lemma MergeFull(c: Companion, d: Companion)
    ensures Merge(c, CompanionPatch(Some(d.id), Some(d.userId), Some(d.name), Some(d.description),
                                    Some(d.avatarUrl), Some(d.originalPhotoUrl), Some(d.personality),
                                    Some(d.voiceType), Some(d.createdAt))) == d
  {
  }

  /** The tests of the field lookups. */
  function HasUsername(username: string): User -> bool
  {
    (u: User) => u.username == username
  }

  function OwnedBy(userId: int): Companion -> bool
  {
    (c: Companion) => c.userId == Some(userId)
  }

  function AboutCompanion(companionId: int): Conversation -> bool
  {
    (c: Conversation) => c.companionId == Some(companionId)
  }

  /**
   * A table whose next id is `next`: every key is an id already handed out
   * (between 1 and `next` - 1), and the keys are listed in increasing
   * order, so insertion order is id order.
   */
  ghost predicate Table<V>(m: OrderedMap<V>, next: nat)
  {
    OrderedMaps.Valid(m) && Increasing(m.order) && next >= 1 &&
    forall k :: k in m.entries ==> 1 <= k < next
  }

  /* ---------------- The store ---------------- */

  class MemStorage {
    var users: OrderedMap<User>
    var companions: OrderedMap<Companion>
    var conversations: OrderedMap<Conversation>
    var userId: nat
    var companionId: nat
    var conversationId: nat

    /** The ids handed out so far by each table. */
    ghost var issuedUserIds: set<int>
    ghost var issuedCompanionIds: set<int>
    ghost var issuedConversationIds: set<int>

    /**
     * Each table holds only ids it has handed out, in increasing order; the
     * ids handed out are exactly 1 up to the counter; users and
     * conversations carry their own key as id.
     */
    ghost predicate Valid()
      reads this
    {
      Table(users, userId) && Table(companions, companionId) && Table(conversations, conversationId) &&
      (forall k :: k in issuedUserIds <==> 1 <= k < userId) &&
      (forall k :: k in issuedCompanionIds <==> 1 <= k < companionId) &&
      (forall k :: k in issuedConversationIds <==> 1 <= k < conversationId) &&
      (forall k :: k in users.entries ==> users.entries[k].id == k) &&
      (forall k :: k in conversations.entries ==> conversations.entries[k].id == k)
    }

    /** Three empty tables whose counters start at 1. */
    constructor()
      ensures Valid()
      ensures users == Empty() && companions == Empty() && conversations == Empty()
      ensures userId == 1 && companionId == 1 && conversationId == 1
      ensures issuedUserIds == {} && issuedCompanionIds == {} && issuedConversationIds == {}
    {
      users := Empty();
      companions := Empty();
      conversations := Empty();
      userId := 1;
      companionId := 1;
      conversationId := 1;
      issuedUserIds := {};
      issuedCompanionIds := {};
      issuedConversationIds := {};
    }

    /* -------- Users -------- */

    /** `getUser(id)`: a stored user carries the id it is stored under, which has been handed out. */
    function GetUser(id: int): (r: Option<User>)
      requires Valid()
      reads this
      ensures r.Some? ==> r.value.id == id && id in issuedUserIds
      ensures r.None? <==> id !in users.entries
      ensures r.Some? ==> r.value == users.entries[id]
    {
      Get(users, id)
    }

    /**
     * `getUserByUsername(username)`: the first user in insertion order with
     * that username, if any; it is the user stored under its own id.
     */
    function GetUserByUsername(username: string): (r: Option<User>)
      requires Valid()
      reads this
      ensures r.None? <==> forall k :: k in users.entries ==> users.entries[k].username != username
      ensures r.Some? ==> r.value.username == username && GetUser(r.value.id) == Some(r.value)
      ensures r.Some? ==> exists i :: 0 <= i < |Values(users)| && Values(users)[i] == r.value &&
                                      forall j :: 0 <= j < i ==> Values(users)[j].username != username
    {
      var vs := Values(users);
      ValuesListEntries(users);
      var r := Find(vs, HasUsername(username));
      assert r.Some? ==> r.value in vs;
      r
    }

    /** `createUser(insertUser)`: store the user under the next id and advance that counter only. */
    method CreateUser(insertUser: InsertUser) returns (user: User)
      requires Valid()
      modifies this
      ensures Valid()
      ensures user == User(old(userId), insertUser.username, insertUser.password)
      ensures user.id !in old(issuedUserIds) && issuedUserIds == old(issuedUserIds) + {user.id}
      ensures users == Put(old(users), user.id, user)
      ensures Values(users) == old(Values(users)) + [user]
      ensures GetUser(user.id) == Some(user)
      ensures userId == old(userId) + 1
      ensures companions == old(companions) && conversations == old(conversations)
      ensures companionId == old(companionId) && conversationId == old(conversationId)
      ensures issuedCompanionIds == old(issuedCompanionIds) && issuedConversationIds == old(issuedConversationIds)
    {
      var id := userId;
      userId := userId + 1;
      user := User(id, insertUser.username, insertUser.password);
      PutValues(users, id, user);
      AppendLargerKey(users, id, user);
      users := Put(users, id, user);
      issuedUserIds := issuedUserIds + {id};
    }

    /* -------- Companions -------- */

    /** `getCompanion(id)`: a stored companion sits under an id that has been handed out. */
    function GetCompanion(id: int): (r: Option<Companion>)
      requires Valid()
      reads this
      ensures r.Some? ==> id in issuedCompanionIds
      ensures r.None? <==> id !in companions.entries
      ensures r.Some? ==> r.value == companions.entries[id]
    {
      Get(companions, id)
    }

    /** `getCompanionsByUserId(userId)`: exactly the companions of that user, in insertion order. */
    function GetCompanionsByUserId(userId: int): (r: seq<Companion>)
      requires Valid()
      reads this
      ensures forall i :: 0 <= i < |r| ==> r[i].userId == Some(userId) && r[i] in Values(companions)
      ensures forall k :: k in companions.entries && companions.entries[k].userId == Some(userId) ==>
        companions.entries[k] in r
      ensures |r| == CountWhere(Values(companions), OwnedBy(userId))
      ensures SelectedAt(r, Values(companions), Positions(Values(companions), OwnedBy(userId)))
    {
      ValuesListEntries(companions);
      FilterSelects(Values(companions), OwnedBy(userId));
      Filter(Values(companions), OwnedBy(userId))
    }

    /** `createCompanion(insertCompanion)`: store the companion under the next id and advance that counter only. */
    method CreateCompanion(insertCompanion: InsertCompanion) returns (companion: Companion)
      requires Valid()
      modifies this
      ensures Valid()
      ensures companion == NewCompanion(insertCompanion, old(companionId))
      ensures companion.id !in old(issuedCompanionIds) && issuedCompanionIds == old(issuedCompanionIds) + {companion.id}
      ensures companions == Put(old(companions), companion.id, companion)
      ensures Values(companions) == old(Values(companions)) + [companion]
      ensures GetCompanion(companion.id) == Some(companion)
      ensures companionId == old(companionId) + 1
      ensures users == old(users) && conversations == old(conversations)
      ensures userId == old(userId) && conversationId == old(conversationId)
      ensures issuedUserIds == old(issuedUserIds) && issuedConversationIds == old(issuedConversationIds)
    {
      var id := companionId;
      companionId := companionId + 1;
      companion := NewCompanion(insertCompanion, id);
      PutValues(companions, id, companion);
      AppendLargerKey(companions, id, companion);
      companions := Put(companions, id, companion);
      issuedCompanionIds := issuedCompanionIds + {id};
    }

    /**
     * `updateCompanion(id, data)`: on an absent id, nothing changes and the
     * result is `None`; otherwise the companion overlaid with `data` is
     * stored under the same key, in the same place, and returned. The
     * patch may change the record's `id` field; the key stays.
     */
    method UpdateCompanion(id: int, data: CompanionPatch) returns (r: Option<Companion>)
      requires Valid()
      modifies this
      ensures Valid()
      ensures id !in old(companions.entries) ==> r.None? && companions == old(companions)
      ensures id in old(companions.entries) ==>
        r == Some(Merge(old(companions.entries[id]), data)) && companions == Put(old(companions), id, r.value)
      ensures companions.order == old(companions.order)
      ensures forall k :: k != id ==> Get(companions, k) == old(Get(companions, k))
      ensures users == old(users) && conversations == old(conversations)
      ensures userId == old(userId) && companionId == old(companionId) && conversationId == old(conversationId)
      ensures issuedUserIds == old(issuedUserIds) && issuedCompanionIds == old(issuedCompanionIds)
      ensures issuedConversationIds == old(issuedConversationIds)
    {
      var companion := Get(companions, id);
      if companion.None? {
        return None;
      }
      var updatedCompanion := Merge(companion.value, data);
      companions := Put(companions, id, updatedCompanion);
      return Some(updatedCompanion);
    }

    /**
     * `deleteCompanion(id)`: true exactly when the id was present; the
     * companion is gone afterwards, the others keep their order, and
     * nothing else changes: conversations that point at it stay, and the
     * counter does not go back, so its id is never handed out again.
     */
    method DeleteCompanion(id: int) returns (deleted: bool)
      requires Valid()
      modifies this
      ensures Valid()
      ensures deleted <==> id in old(companions.entries)
      ensures companions == Delete(old(companions), id)
      ensures GetCompanion(id) == None
      ensures forall k :: k != id ==> Get(companions, k) == old(Get(companions, k))
      ensures users == old(users) && conversations == old(conversations)
      ensures userId == old(userId) && companionId == old(companionId) && conversationId == old(conversationId)
      ensures issuedUserIds == old(issuedUserIds) && issuedCompanionIds == old(issuedCompanionIds)
      ensures issuedConversationIds == old(issuedConversationIds)
    {
      deleted := id in companions.entries;
      RemoveIncreasing(companions.order, id);
      companions := Delete(companions, id);
    }

    /* -------- Conversations -------- */

    /** `getConversation(id)`: a stored conversation carries the id it is stored under, which has been handed out. */
    function GetConversation(id: int): (r: Option<Conversation>)
      requires Valid()
      reads this
      ensures r.Some? ==> r.value.id == id && id in issuedConversationIds
      ensures r.None? <==> id !in conversations.entries
      ensures r.Some? ==> r.value == conversations.entries[id]
    {
      Get(conversations, id)
    }

    /**
     * `getConversationByCompanionId(companionId)`: the first conversation in
     * insertion order that belongs to the companion, if any; it is the
     * conversation stored under its own id.
     */
    function GetConversationByCompanionId(companionId: int): (r: Option<Conversation>)
      requires Valid()
      reads this
      ensures r.None? <==> forall k :: k in conversations.entries ==> conversations.entries[k].companionId != Some(companionId)
      ensures r.Some? ==> r.value.companionId == Some(companionId) && GetConversation(r.value.id) == Some(r.value)
      ensures r.Some? ==> exists i :: 0 <= i < |Values(conversations)| && Values(conversations)[i] == r.value &&
                                      forall j :: 0 <= j < i ==> Values(conversations)[j].companionId != Some(companionId)
    {
      var vs := Values(conversations);
      ValuesListEntries(conversations);
      var r := Find(vs, AboutCompanion(companionId));
      assert r.Some? ==> r.value in vs;
      r
    }

    /** `createConversation(insertConversation)`: store the conversation under the next id and advance that counter only. */
    method CreateConversation(insertConversation: InsertConversation) returns (conversation: Conversation)
      requires Valid()
      modifies this
      ensures Valid()
      ensures conversation == Conversation(old(conversationId), insertConversation.companionId,
                                           insertConversation.messages, insertConversation.updatedAt)
      ensures conversation.id !in old(issuedConversationIds)
      ensures issuedConversationIds == old(issuedConversationIds) + {conversation.id}
      ensures conversations == Put(old(conversations), conversation.id, conversation)
      ensures Values(conversations) == old(Values(conversations)) + [conversation]
      ensures GetConversation(conversation.id) == Some(conversation)
      ensures conversationId == old(conversationId) + 1
      ensures users == old(users) && companions == old(companions)
      ensures userId == old(userId) && companionId == old(companionId)
      ensures issuedUserIds == old(issuedUserIds) && issuedCompanionIds == old(issuedCompanionIds)
    {
      var id := conversationId;
      conversationId := conversationId + 1;
      conversation := Conversation(id, insertConversation.companionId, insertConversation.messages, insertConversation.updatedAt);
      PutValues(conversations, id, conversation);
      AppendLargerKey(conversations, id, conversation);
      conversations := Put(conversations, id, conversation);
      issuedConversationIds := issuedConversationIds + {id};
    }

    /**
     * `updateConversation(id, messages)` at time `now`: on an absent id,
     * nothing changes and the result is `None`; otherwise only the messages
     * and `updatedAt` change, the id and the companion stay, and the
     * conversation keeps its key and place.
     */
    method UpdateConversation(id: int, messages: seq<Message>, now: string) returns (r: Option<Conversation>)
      requires Valid()
      modifies this
      ensures Valid()
      ensures id !in old(conversations.entries) ==> r.None? && conversations == old(conversations)
      ensures id in old(conversations.entries) ==>
        r == Some(old(conversations.entries[id]).(messages := messages, updatedAt := now)) &&
        conversations == Put(old(conversations), id, r.value)
      ensures r.Some? ==> r.value.id == id && r.value.companionId == old(conversations.entries[id]).companionId
      ensures conversations.order == old(conversations.order)
      ensures forall k :: k != id ==> Get(conversations, k) == old(Get(conversations, k))
      ensures users == old(users) && companions == old(companions)
      ensures userId == old(userId) && companionId == old(companionId) && conversationId == old(conversationId)
      ensures issuedUserIds == old(issuedUserIds) && issuedCompanionIds == old(issuedCompanionIds)
      ensures issuedConversationIds == old(issuedConversationIds)
    {
      var conversation := Get(conversations, id);
      if conversation.None? {
        return None;
      }
      var updatedConversation := conversation.value.(messages := messages, updatedAt := now);
      conversations := Put(conversations, id, updatedConversation);
      return Some(updatedConversation);
    }
  }

  /** Putting a key above every present key keeps a table's order increasing. */
  lemma AppendLargerKey<V>(m: OrderedMap<V>, k: int, v: V)
    requires OrderedMaps.Valid(m) && Increasing(m.order) && forall j :: j in m.entries ==> j < k
    ensures k !in m.entries
    ensures Increasing(Put(m, k, v).order)
  {
    ListedKeysPresent(m);
  }
}
