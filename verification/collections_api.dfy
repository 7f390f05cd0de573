/** The client's collection calls (api/collections.go). */
module CollectionsApi {
  import opened Wrappers
  import opened Bytes
  import opened Body
  import E = Endpoints
  import opened Api

  /** CreateCollection: POST /collection with the title always, `public` only when true
      (the field is a plain bool tagged `omitempty`), and the parent reference iff the
      parent id is positive. */
  function CreateCollection(title: Bytes, parentId: int, isPublic: bool): (r: Request)
    ensures r.verb == Post && E.Addresses(r.endpoint, E.Collection)
    ensures ObjectWith(r.body, {Title} + When(isPublic, Public) + When(parentId > 0, Parent))
    ensures MemberOf(r.body, Title) == JString(title)
    ensures isPublic ==> MemberOf(r.body, Public) == JBool(true)
    ensures parentId > 0 ==> MemberOf(r.body, Parent) == Ref(parentId)
  {
    E.AddressesRendered(E.Collection);
    var m := CreateCollectionBody(title, parentId, isPublic);
    var r := Request(Post, E.Render(E.Collection), Some(JObject(m)));
    assert MemberOf(r.body, Title) == m[Title];
    assert isPublic ==> MemberOf(r.body, Public) == m[Public];
    assert parentId > 0 ==> MemberOf(r.body, Parent) == m[Parent];
    r
  }

  /** The CreateCollectionRequest fields in declaration order. */
  function CreateCollectionBody(title: Bytes, parentId: int, isPublic: bool): (m: map<Key, Json>)
    ensures m.Keys == {Title} + When(isPublic, Public) + When(parentId > 0, Parent)
    ensures m[Title] == JString(title)
    ensures isPublic ==> m[Public] == JBool(true)
    ensures parentId > 0 ==> m[Parent] == Ref(parentId)
  {
    var m1 := Field(map[], Title, GoString(title), Always);
    var m2 := Field(m1, Sort, GoInt(0), OmitEmpty);
    var m3 := Field(m2, Public, GoBool(isPublic), OmitEmpty);
    assert m3.Keys == {Title} + When(isPublic, Public);
    var m4 := Field(m3, Parent, GoRefPointer(if parentId > 0 then Some(parentId) else None), OmitEmpty);
    assert m4.Keys == {Title} + When(isPublic, Public) + When(parentId > 0, Parent);
    var m5 := Field(m4, View, GoString([]), OmitEmpty);
    var m6 := Field(m5, Cover, GoStrings([]), OmitEmpty);
    assert m5 == m4 && m6 == m5;
    m6
  }

  function GetCollection(id: int): (r: Request)
    ensures r.verb == Get && r.body == None && E.Addresses(r.endpoint, E.CollectionById(id))
  {
    E.AddressesRendered(E.CollectionById(id));
    Request(Get, E.Render(E.CollectionById(id)), None)
  }

  /** UpdateCollection: PUT /collection/{id} with the title when non-empty, `public`
      whenever a value is given (a pointer, so false is sent too) and the parent reference
      whenever one is given. */
  function UpdateCollection(id: int, title: Bytes, isPublic: Option<bool>, parentId: Option<int>): (r: Request)
    ensures r.verb == Put && E.Addresses(r.endpoint, E.CollectionById(id))
    ensures ObjectWith(r.body, When(title != [], Title) + When(isPublic.Some?, Public) + When(parentId.Some?, Parent))
    ensures title != [] ==> MemberOf(r.body, Title) == JString(title)
    ensures isPublic.Some? ==> MemberOf(r.body, Public) == JBool(isPublic.value)
    ensures parentId.Some? ==> MemberOf(r.body, Parent) == Ref(parentId.value)
  {
    E.AddressesRendered(E.CollectionById(id));
    Request(Put, E.Render(E.CollectionById(id)), Some(JObject(UpdateCollectionBody(title, isPublic, parentId))))
  }

  /** The UpdateCollectionRequest fields in declaration order. */
  function UpdateCollectionBody(title: Bytes, isPublic: Option<bool>, parentId: Option<int>): (m: map<Key, Json>)
    ensures m.Keys == When(title != [], Title) + When(isPublic.Some?, Public) + When(parentId.Some?, Parent)
    ensures title != [] ==> m[Title] == JString(title)
    ensures isPublic.Some? ==> m[Public] == JBool(isPublic.value)
    ensures parentId.Some? ==> m[Parent] == Ref(parentId.value)
  {
    var m1 := Field(map[], Title, GoString(title), OmitEmpty);
    var m2 := Field(m1, Sort, GoInt(0), OmitEmpty);
    var m3 := Field(m2, Public, GoBoolPointer(isPublic), OmitEmpty);
    assert m3.Keys == When(title != [], Title) + When(isPublic.Some?, Public);
    var m4 := Field(m3, Parent, GoRefPointer(parentId), OmitEmpty);
    assert m4.Keys == When(title != [], Title) + When(isPublic.Some?, Public) + When(parentId.Some?, Parent);
    var m5 := Field(m4, View, GoString([]), OmitEmpty);
    var m6 := Field(m5, Cover, GoStrings([]), OmitEmpty);
    var m7 := Field(m6, Expanded, GoBool(false), OmitEmpty);
    assert m5 == m4 && m6 == m5 && m7 == m6;
    m7
  }

  function DeleteCollection(id: int): (r: Request)
    ensures r.verb == Delete && r.body == None && E.Addresses(r.endpoint, E.CollectionById(id))
  {
    E.AddressesRendered(E.CollectionById(id));
    Request(Delete, E.Render(E.CollectionById(id)), None)
  }

  /** MergeCollections: PUT /collections/merge with body `{"ids": [...], "to": target}`. */
  function MergeCollections(ids: seq<int>, targetId: int): (r: Request)
    ensures r.verb == Put && E.Addresses(r.endpoint, E.CollectionsMerge)
    ensures ObjectWith(r.body, {To, Ids})
    ensures MemberOf(r.body, To) == JInt(targetId) && MemberOf(r.body, Ids) == Ints(ids)
  {
    E.AddressesRendered(E.CollectionsMerge);
    var to, list := JInt(targetId), Ints(ids);
    var m := map[To := to, Ids := list];
    assert m.Keys == {To, Ids};
    var r := Request(Put, E.Render(E.CollectionsMerge), Some(JObject(m)));
    assert MemberOf(r.body, To) == to;
    assert MemberOf(r.body, Ids) == list;
    r
  }
}
