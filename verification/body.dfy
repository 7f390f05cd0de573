/** Request bodies as encoding/json writes them from the client's request structs.
    A struct field becomes an object member unless it is tagged `omitempty` and holds its
    type's empty value: "", 0, false, an empty slice or map, or a nil pointer. A non-nil
    pointer is never empty, even when it points at false. */
module Body {
  import opened Wrappers
  import opened Bytes

  /** The member names the client writes; `Spelling` gives each one's JSON text. */
  datatype Key =
    | Link | Title | Excerpt | Note | Tags | Important | Collection | PleaseParse
    | RefId | Old | New | Raindrop | Passage | Color
    | Sort | Public | Parent | View | Cover | Expanded | To | Ids

  function Spelling(k: Key): string {
    match k
    case Link => "link"
    case Title => "title"
    case Excerpt => "excerpt"
    case Note => "note"
    case Tags => "tags"
    case Important => "important"
    case Collection => "collection"
    case PleaseParse => "pleaseParse"
    case RefId => "$id"
    case Old => "old"
    case New => "new"
    case Raindrop => "raindrop"
    case Passage => "text"
    case Color => "color"
    case Sort => "sort"
    case Public => "public"
    case Parent => "parent"
    case View => "view"
    case Cover => "cover"
    case Expanded => "expanded"
    case To => "to"
    case Ids => "ids"
  }

  datatype Json =
    | JNull
    | JBool(b: bool)
    | JInt(n: int)
    | JString(s: Bytes)
    | JArray(items: seq<Json>)
    | JObject(members: map<Key, Json>)

  /** The Go value held by one struct field. */
  datatype GoValue =
    | GoString(s: Bytes)
    | GoInt(n: int)
    | GoBool(b: bool)
    | GoStrings(strs: seq<Bytes>)      // []string
    | GoInts(ints: seq<int>)           // []int
    | GoEmptyMap                       // map[string]any{}
    | GoBoolPointer(p: Option<bool>)   // *bool
    | GoRefPointer(ref: Option<int>)   // *CollectionRef

  /** The values `omitempty` leaves out. */
  predicate IsEmpty(v: GoValue) {
    match v
    case GoString(s) => s == []
    case GoInt(n) => n == 0
    case GoBool(b) => !b
    case GoStrings(xs) => |xs| == 0
    case GoInts(xs) => |xs| == 0
    case GoEmptyMap => true
    case GoBoolPointer(p) => p.None?
    case GoRefPointer(p) => p.None?
  }

  function Strings(xs: seq<Bytes>): (j: Json)
    ensures j.JArray? && |j.items| == |xs|
    ensures forall i | 0 <= i < |xs| :: j.items[i] == JString(xs[i])
  {
    JArray(seq(|xs|, i requires 0 <= i < |xs| => JString(xs[i])))
  }

  function Ints(xs: seq<int>): (j: Json)
    ensures j.JArray? && |j.items| == |xs|
    ensures forall i | 0 <= i < |xs| :: j.items[i] == JInt(xs[i])
  {
    JArray(seq(|xs|, i requires 0 <= i < |xs| => JInt(xs[i])))
  }

  /** A CollectionRef: `{"$id": id}`. */
  function Ref(id: int): Json {
    JObject(map[RefId := JInt(id)])
  }

  function ToJson(v: GoValue): Json {
    match v
    case GoString(s) => JString(s)
    case GoInt(n) => JInt(n)
    case GoBool(b) => JBool(b)
    case GoStrings(xs) => Strings(xs)
    case GoInts(xs) => Ints(xs)
    case GoEmptyMap => JObject(map[])
    case GoBoolPointer(p) => if p.Some? then JBool(p.value) else JNull
    case GoRefPointer(p) => if p.Some? then Ref(p.value) else JNull
  }

  /** Field tags: a plain `json:"name"` or `json:"name,omitempty"`. */
  datatype Tag = Always | OmitEmpty

  /** Whether encoding/json writes a field holding `v` under `tag`. */
  predicate Emitted(v: GoValue, tag: Tag) {
    tag.Always? || !IsEmpty(v)
  }

  /** Adds one struct field to the object being written. */
  function Field(obj: map<Key, Json>, name: Key, v: GoValue, tag: Tag): (r: map<Key, Json>)
    ensures r.Keys == obj.Keys + When(Emitted(v, tag), name)
    ensures Emitted(v, tag) ==> r[name] == ToJson(v)
  {
    if tag.OmitEmpty? && IsEmpty(v) then obj else obj[name := ToJson(v)]
  }

  /** The set {k} when `c` holds, else the empty set. */
  function When(c: bool, k: Key): set<Key> {
    if c then {k} else {}
  }

  /** The body is an object whose member names are exactly `keys`. */
  predicate ObjectWith(body: Option<Json>, keys: set<Key>) {
    body.Some? && body.value.JObject? && body.value.members.Keys == keys
  }

  /** Member `k` of an object body (JNull when absent, which callers rule out). */
  function MemberOf(body: Option<Json>, k: Key): Json {
    if body.Some? && body.value.JObject? && k in body.value.members then body.value.members[k]
    else JNull
  }
}
