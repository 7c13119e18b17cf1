/** The generic content client: a content-type key from the route is resolved
    to a backend path, the path to one endpoint per verb (table first, naming
    convention as the fallback), and each reply is unwrapped. */
module ContentService {
  import opened Values
  import opened Http
  import opened Items

  /** A lookup object literal, as its ordered `key: value` entries. */
  type Table = seq<(string, string)>

  /** Route key to backend path. */
  const PathTable: Table := [
    ("sexual-orientation", "sexual-orientation"),
    ("looking-for", "current-situation"),
    ("education", "education"),
    ("workout", "workout"),
    ("religion", "religion"),
    ("smoking", "smoking"),
    ("drinking", "drinking"),
    ("interests", "interest"),
    ("nationalities", "nationality"),
    ("native-languages", "native-language"),
    ("current-situations", "current-situation")
  ]

  const ListTable: Table := [
    ("sexual-orientation", "get-all-sexual-orientations"),
    ("current-situation", "get-all-current-situations"),
    ("education", "get-all-educations"),
    ("workout", "get-all-workouts"),
    ("religion", "get-all-religions"),
    ("smoking", "get-all-smokings"),
    ("drinking", "get-all-drinkings"),
    ("interest", "get-all-interests"),
    ("nationality", "get-all-nationalities"),
    ("native-language", "get-all-native-languages")
  ]

  const GetTable: Table := [
    ("sexual-orientation", "get-sexual-orientation"),
    ("current-situation", "get-current-situation"),
    ("education", "get-education"),
    ("workout", "get-workout"),
    ("religion", "get-religion"),
    ("smoking", "get-smoking"),
    ("drinking", "get-drinking"),
    ("interest", "get-interest"),
    ("nationality", "get-nationality"),
    ("native-language", "get-native-language")
  ]

  const CreateTable: Table := [
    ("interest", "create-interest"),
    ("sexual-orientation", "create-sexual-orientation"),
    ("current-situation", "create-current-situation"),
    ("education", "create-education"),
    ("workout", "create-workout"),
    ("religion", "create-religion"),
    ("smoking", "create-smoking"),
    ("drinking", "create-drinking"),
    ("nationality", "create-nationality"),
    ("native-language", "create-native-language")
  ]

  const UpdateTable: Table := [
    ("sexual-orientation", "update-sexual-orientation"),
    ("current-situation", "update-current-situation"),
    ("education", "update-education"),
    ("workout", "update-workout"),
    ("religion", "update-religion"),
    ("smoking", "update-smoking"),
    ("drinking", "update-drinking"),
    ("interest", "update-interest"),
    ("nationality", "update-nationality"),
    ("native-language", "update-native-language")
  ]

  const DeleteTable: Table := [
    ("sexual-orientation", "delete-sexual-orientation"),
    ("current-situation", "delete-current-situation"),
    ("education", "delete-education"),
    ("workout", "delete-workout"),
    ("religion", "delete-religion"),
    ("smoking", "delete-smoking"),
    ("drinking", "delete-drinking"),
    ("interest", "delete-interest"),
    ("nationality", "delete-nationality"),
    ("native-language", "delete-native-language")
  ]

  const DisplayTable: Table := [
    ("sexual-orientation", "Sexual Orientation"),
    ("looking-for", "Looking For"),
    ("education", "Education"),
    ("workout", "Workout"),
    ("religion", "Religion"),
    ("smoking", "Smoking"),
    ("drinking", "Drinking"),
    ("interests", "Interests"),
    ("nationalities", "Nationalities"),
    ("native-languages", "Native Languages"),
    ("current-situations", "Current Situations")
  ]

  /** `table[key]`: the value of the first entry with that key, if any. */
  function Find(table: Table, key: string): (r: Option<string>)
    ensures r.Some? ==> exists i :: 0 <= i < |table| && table[i] == (key, r.value)
    ensures r.None? ==> forall i :: 0 <= i < |table| ==> table[i].0 != key
  {
    if |table| == 0 then None
    else if table[0].0 == key then Some(table[0].1)
    else Find(table[1..], key)
  }

  /** `table[key] || fallback`. */
  function Lookup(table: Table, key: string, fallback: string): string {
    match Find(table, key)
    case Some(v) => if v != "" then v else fallback
    case None => fallback
  }

  /** `getContentTypePath`. */
  function ContentTypePath(contentType: string): string {
    Lookup(PathTable, contentType, contentType)
  }

  /** A listed key takes its table entry and any other key is left as it is. */
  lemma PathResolution(contentType: string)
    ensures Find(PathTable, contentType).Some? ==>
      ContentTypePath(contentType) == Find(PathTable, contentType).value
    ensures Find(PathTable, contentType).None? ==> ContentTypePath(contentType) == contentType
  {
    assert forall i :: 0 <= i < |PathTable| ==> PathTable[i].1 != "";
  }

  /** `Find` returns the entry at `i` when `i` is the first position holding `key`. */
  lemma {:induction false} FindFirst(table: Table, key: string, i: nat)
    requires i < |table| && table[i].0 == key
    requires forall j :: 0 <= j < i ==> table[j].0 != key
    ensures Find(table, key) == Some(table[i].1)
  {
    if i > 0 {
      FindFirst(table[1..], key, i - 1);
    }
  }

  /** `looking-for` and `current-situations` are two route keys for one backend path. */
  lemma SharedCurrentSituationPath()
    ensures ContentTypePath("looking-for") == "current-situation"
    ensures ContentTypePath("current-situations") == "current-situation"
  {
    FindFirst(PathTable, "looking-for", 1);
    FindFirst(PathTable, "current-situations", 10);
  }

  /** `interests` drops its plural: the backend path is `interest`. */
  lemma InterestsPath()
    ensures ContentTypePath("interests") == "interest"
  {
    FindFirst(PathTable, "interests", 7);
  }

  /** `nationalities` drops its plural: the backend path is `nationality`. */
  lemma NationalitiesPath()
    ensures ContentTypePath("nationalities") == "nationality"
  {
    FindFirst(PathTable, "nationalities", 8);
  }

  /** `native-languages` drops its plural: the backend path is `native-language`. */
  lemma NativeLanguagesPath()
    ensures ContentTypePath("native-languages") == "native-language"
  {
    FindFirst(PathTable, "native-languages", 9);
  }

  /** Every entry of the list table is `get-all-${path}s`, except `nationality`,
      whose plural is irregular. */
  lemma ListTableFollowsConvention()
    ensures forall i :: 0 <= i < |ListTable| && ListTable[i].0 != "nationality" ==>
      ListTable[i].1 == "get-all-" + ListTable[i].0 + "s"
    ensures Find(ListTable, "nationality") == Some("get-all-nationalities")
  {
    ListTableHeadFollowsConvention();
    ListTableTailFollowsConvention();
    FindFirst(ListTable, "nationality", 8);
  }

  lemma ListTableHeadFollowsConvention()
    ensures forall i :: 0 <= i < 5 ==> ListTable[i].1 == "get-all-" + ListTable[i].0 + "s"
  {
    assert ListTable[0].1 == "get-all-" + ListTable[0].0 + "s";
    assert ListTable[1].1 == "get-all-" + ListTable[1].0 + "s";
    assert ListTable[2].1 == "get-all-" + ListTable[2].0 + "s";
    assert ListTable[3].1 == "get-all-" + ListTable[3].0 + "s";
    assert ListTable[4].1 == "get-all-" + ListTable[4].0 + "s";
  }

  lemma ListTableTailFollowsConvention()
    ensures forall i :: 5 <= i < 10 && i != 8 ==> ListTable[i].1 == "get-all-" + ListTable[i].0 + "s"
    ensures ListTable[8] == ("nationality", "get-all-nationalities")
  {
    assert ListTable[5].1 == "get-all-" + ListTable[5].0 + "s";
    assert ListTable[6].1 == "get-all-" + ListTable[6].0 + "s";
    assert ListTable[7].1 == "get-all-" + ListTable[7].0 + "s";
    assert ListTable[9].1 == "get-all-" + ListTable[9].0 + "s";
  }

  /** Every entry of a per-verb table is `${verb}-${path}`: the table agrees
      with its own fallback. */
  predicate FollowsVerbConvention(table: Table, verb: string) {
    forall i :: 0 <= i < |table| ==> table[i].1 == verb + "-" + table[i].0
  }

  lemma GetTableFollowsConvention()
    ensures FollowsVerbConvention(GetTable, "get")
  {
    GetTableHeadFollowsConvention();
    GetTableTailFollowsConvention();
  }

  lemma GetTableHeadFollowsConvention()
    ensures forall i :: 0 <= i < 5 ==> GetTable[i].1 == "get-" + GetTable[i].0
  {
    assert GetTable[0].1 == "get-" + GetTable[0].0;
    assert GetTable[1].1 == "get-" + GetTable[1].0;
    assert GetTable[2].1 == "get-" + GetTable[2].0;
    assert GetTable[3].1 == "get-" + GetTable[3].0;
    assert GetTable[4].1 == "get-" + GetTable[4].0;
  }

  lemma GetTableTailFollowsConvention()
    ensures forall i :: 5 <= i < 10 ==> GetTable[i].1 == "get-" + GetTable[i].0
  {
    assert GetTable[5].1 == "get-" + GetTable[5].0;
    assert GetTable[6].1 == "get-" + GetTable[6].0;
    assert GetTable[7].1 == "get-" + GetTable[7].0;
    assert GetTable[8].1 == "get-" + GetTable[8].0;
    assert GetTable[9].1 == "get-" + GetTable[9].0;
  }

  lemma CreateTableFollowsConvention()
    ensures FollowsVerbConvention(CreateTable, "create")
  {
    CreateTableHeadFollowsConvention();
    CreateTableTailFollowsConvention();
  }

  lemma CreateTableHeadFollowsConvention()
    ensures forall i :: 0 <= i < 5 ==> CreateTable[i].1 == "create-" + CreateTable[i].0
  {
    assert CreateTable[0].1 == "create-" + CreateTable[0].0;
    assert CreateTable[1].1 == "create-" + CreateTable[1].0;
    assert CreateTable[2].1 == "create-" + CreateTable[2].0;
    assert CreateTable[3].1 == "create-" + CreateTable[3].0;
    assert CreateTable[4].1 == "create-" + CreateTable[4].0;
  }

  lemma CreateTableTailFollowsConvention()
    ensures forall i :: 5 <= i < 10 ==> CreateTable[i].1 == "create-" + CreateTable[i].0
  {
    assert CreateTable[5].1 == "create-" + CreateTable[5].0;
    assert CreateTable[6].1 == "create-" + CreateTable[6].0;
    assert CreateTable[7].1 == "create-" + CreateTable[7].0;
    assert CreateTable[8].1 == "create-" + CreateTable[8].0;
    assert CreateTable[9].1 == "create-" + CreateTable[9].0;
  }

  lemma UpdateTableFollowsConvention()
    ensures FollowsVerbConvention(UpdateTable, "update")
  {
    UpdateTableHeadFollowsConvention();
    UpdateTableTailFollowsConvention();
  }

  lemma UpdateTableHeadFollowsConvention()
    ensures forall i :: 0 <= i < 5 ==> UpdateTable[i].1 == "update-" + UpdateTable[i].0
  {
    assert UpdateTable[0].1 == "update-" + UpdateTable[0].0;
    assert UpdateTable[1].1 == "update-" + UpdateTable[1].0;
    assert UpdateTable[2].1 == "update-" + UpdateTable[2].0;
    assert UpdateTable[3].1 == "update-" + UpdateTable[3].0;
    assert UpdateTable[4].1 == "update-" + UpdateTable[4].0;
  }

  lemma UpdateTableTailFollowsConvention()
    ensures forall i :: 5 <= i < 10 ==> UpdateTable[i].1 == "update-" + UpdateTable[i].0
  {
    assert UpdateTable[5].1 == "update-" + UpdateTable[5].0;
    assert UpdateTable[6].1 == "update-" + UpdateTable[6].0;
    assert UpdateTable[7].1 == "update-" + UpdateTable[7].0;
    assert UpdateTable[8].1 == "update-" + UpdateTable[8].0;
    assert UpdateTable[9].1 == "update-" + UpdateTable[9].0;
  }

  lemma DeleteTableFollowsConvention()
    ensures FollowsVerbConvention(DeleteTable, "delete")
  {
    DeleteTableHeadFollowsConvention();
    DeleteTableTailFollowsConvention();
  }

  lemma DeleteTableHeadFollowsConvention()
    ensures forall i :: 0 <= i < 5 ==> DeleteTable[i].1 == "delete-" + DeleteTable[i].0
  {
    assert DeleteTable[0].1 == "delete-" + DeleteTable[0].0;
    assert DeleteTable[1].1 == "delete-" + DeleteTable[1].0;
    assert DeleteTable[2].1 == "delete-" + DeleteTable[2].0;
    assert DeleteTable[3].1 == "delete-" + DeleteTable[3].0;
    assert DeleteTable[4].1 == "delete-" + DeleteTable[4].0;
  }

  lemma DeleteTableTailFollowsConvention()
    ensures forall i :: 5 <= i < 10 ==> DeleteTable[i].1 == "delete-" + DeleteTable[i].0
  {
    assert DeleteTable[5].1 == "delete-" + DeleteTable[5].0;
    assert DeleteTable[6].1 == "delete-" + DeleteTable[6].0;
    assert DeleteTable[7].1 == "delete-" + DeleteTable[7].0;
    assert DeleteTable[8].1 == "delete-" + DeleteTable[8].0;
    assert DeleteTable[9].1 == "delete-" + DeleteTable[9].0;
  }

  /** A table that follows the convention resolves every path, listed or not,
      to `${verb}-${path}`. */
  lemma ConventionalLookup(table: Table, verb: string, path: string)
    requires FollowsVerbConvention(table, verb)
    ensures Lookup(table, path, verb + "-" + path) == verb + "-" + path
  {
  }

  /** The list endpoint of a backend path: the plural convention for every path
      except `nationality`. */
  function ListEndpoint(path: string): (r: string)
    ensures path != "nationality" ==> r == "get-all-" + path + "s"
    ensures path == "nationality" ==> r == "get-all-nationalities"
  {
    ListTableFollowsConvention();
    Lookup(ListTable, path, "get-all-" + path + "s")
  }

  /** The get endpoint: table and fallback agree on `get-${path}`. */
  function GetEndpoint(path: string): (r: string)
    ensures r == "get-" + path
  {
    GetTableFollowsConvention();
    ConventionalLookup(GetTable, "get", path);
    Lookup(GetTable, path, "get-" + path)
  }

  function CreateEndpoint(path: string): (r: string)
    ensures r == "create-" + path
  {
    CreateTableFollowsConvention();
    ConventionalLookup(CreateTable, "create", path);
    Lookup(CreateTable, path, "create-" + path)
  }

  function UpdateEndpoint(path: string): (r: string)
    ensures r == "update-" + path
  {
    UpdateTableFollowsConvention();
    ConventionalLookup(UpdateTable, "update", path);
    Lookup(UpdateTable, path, "update-" + path)
  }

  function DeleteEndpoint(path: string): (r: string)
    ensures r == "delete-" + path
  {
    DeleteTableFollowsConvention();
    ConventionalLookup(DeleteTable, "delete", path);
    Lookup(DeleteTable, path, "delete-" + path)
  }

  /** `getItems`: the request. */
  function GetItemsCall(apiUrl: string, contentType: string): (c: Call<ItemData>)
    ensures c.verb == GET && c.body == None
    ensures c.url == AdminUrl(apiUrl, ListEndpoint(ContentTypePath(contentType)))
  {
    Call(GET, AdminUrl(apiUrl, ListEndpoint(ContentTypePath(contentType))), None)
  }

  /** `getItems`: the reply. */
  function GetItemsResult(reply: Reply<Envelope<seq<Item>>>): (r: Outcome<seq<Item>>)
    ensures reply.Delivered? ==> r.Next?
    ensures reply.Delivered? && Accepted(reply.body) ==>
      |r.value| == |reply.body.data.value|
      && (forall i :: 0 <= i < |r.value| ==>
            r.value[i].id == reply.body.data.value[i].backendId
            && StripId(r.value[i]) == StripId(reply.body.data.value[i]))
    ensures reply.Delivered? && !Accepted(reply.body) ==> r.value == []
    ensures reply.Failed? ==> r.Error?
  {
    UnwrapList(reply)
  }

  function GetItemCall(apiUrl: string, contentType: string, id: string): (c: Call<ItemData>)
    ensures c.verb == GET && c.body == None
    ensures c.url == AdminItemUrl(apiUrl, "get-" + ContentTypePath(contentType), id)
  {
    Call(GET, AdminItemUrl(apiUrl, GetEndpoint(ContentTypePath(contentType)), id), None)
  }

  /** `getItem`: `'Item not found'` unless the envelope has `success` and `data`. */
  function GetItemResult(reply: Reply<Envelope<Item>>): (r: Outcome<Item>)
    ensures r.Next? <==> reply.Delivered? && Accepted(reply.body)
    ensures r.Next? ==> r.value.id == reply.body.data.value.backendId
    ensures reply.Delivered? && !Accepted(reply.body) ==> r == Error(Thrown("Item not found"))
  {
    UnwrapOne(reply, "Item not found")
  }

  /** `addItem`: posts the item without its client `id`. */
  function AddItemCall(apiUrl: string, contentType: string, item: Item): (c: Call<ItemData>)
    ensures c.verb == POST
    ensures c.url == AdminUrl(apiUrl, "create-" + ContentTypePath(contentType))
    ensures c.body == Some(StripId(item))
    ensures c.body.value.backendId == item.backendId
  {
    Call(POST, AdminUrl(apiUrl, CreateEndpoint(ContentTypePath(contentType))), Some(StripId(item)))
  }

  function AddItemResult(reply: Reply<Envelope<Item>>): (r: Outcome<Item>)
    ensures r.Next? <==> reply.Delivered? && Accepted(reply.body)
    ensures reply.Delivered? && !Accepted(reply.body) ==>
      r == Error(Thrown(StrOr(reply.body.message, "Failed to add item")))
  {
    UnwrapWrite(reply, "Failed to add item")
  }

  /** `updateItem`: puts the item without its client `id`; the target comes
      only from the `id` argument. */
  function UpdateItemCall(apiUrl: string, contentType: string, id: string, item: Item): (c: Call<ItemData>)
    ensures c.verb == PUT
    ensures c.url == AdminItemUrl(apiUrl, "update-" + ContentTypePath(contentType), id)
    ensures c.body == Some(StripId(item))
  {
    Call(PUT, AdminItemUrl(apiUrl, UpdateEndpoint(ContentTypePath(contentType)), id), Some(StripId(item)))
  }

  function UpdateItemResult(reply: Reply<Envelope<Item>>): (r: Outcome<Item>)
    ensures r.Next? <==> reply.Delivered? && Accepted(reply.body)
    ensures reply.Delivered? && !Accepted(reply.body) ==>
      r == Error(Thrown(StrOr(reply.body.message, "Failed to update item")))
  {
    UnwrapWrite(reply, "Failed to update item")
  }

  function DeleteItemCall(apiUrl: string, contentType: string, id: string): (c: Call<ItemData>)
    ensures c.verb == DELETE && c.body == None
    ensures c.url == AdminItemUrl(apiUrl, "delete-" + ContentTypePath(contentType), id)
  {
    Call(DELETE, AdminItemUrl(apiUrl, DeleteEndpoint(ContentTypePath(contentType)), id), None)
  }

  /** `deleteItem`: exactly the envelope's `success`; a business failure is not an error. */
  function DeleteItemResult(reply: Reply<Envelope<()>>): (r: Outcome<bool>)
    ensures reply.Delivered? ==> r == Next(reply.body.success)
    ensures reply.Failed? ==> r.Error?
  {
    UnwrapDelete(reply)
  }

  /** `getContentTypeDisplayName`. */
  function DisplayName(contentType: string): (r: string)
    ensures Find(DisplayTable, contentType).Some? ==> r == Find(DisplayTable, contentType).value
    ensures Find(DisplayTable, contentType).None? ==> r == contentType
  {
    assert forall i :: 0 <= i < |DisplayTable| ==> DisplayTable[i].1 != "";
    Lookup(DisplayTable, contentType, contentType)
  }

  /** The display table lists the same keys, in the same order, as the path table. */
  lemma DisplayNamesCoverPaths()
    ensures |DisplayTable| == |PathTable|
    ensures forall i :: 0 <= i < |PathTable| ==> DisplayTable[i].0 == PathTable[i].0
  {
  }
}
