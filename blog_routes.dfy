/** The blog router mounted at `/api/blogs`: POST `/`, GET `/`, GET `/:id`,
    DELETE `/:id` and PATCH `/:id`, over a document store abstracted as a map
    from ids to posts. Each handler is one atomic step. Its decision logic is
    a pure step function; the methods of `BlogStore` carry out the same
    step on the store's state and are proved to agree with it. */
module BlogRoutes {
  import opened Wrappers
  import opened BlogModel

  /** A document id. The store hands ids out in increasing order. */
  type Id = nat

  /** A string field of the parsed JSON request body: absent or present. */
  type Field = Option<string>

  /** JavaScript truthiness of a string field: absent and "" are falsy. */
  predicate Truthy(f: Field) {
    f.Some? && f.value != ""
  }

  /** The expression `f || null`. */
  function OrNull(f: Field): (r: Option<string>)
    ensures r.Some? <==> Truthy(f)
    ensures r.Some? ==> r == f
  {
    if Truthy(f) then f else None
  }

  /** The fields the handlers read from `req.body`. */
  datatype BlogBody = BlogBody(blogTitle: Field, blogContent: Field, blogImageUrl: Field)

  /** What a response carries as JSON: one document with its id, every
      document (as a map, since the listing order is the store's own), or
      a `{ message }` object. */
  datatype Payload =
    | Document(id: Id, blog: Blog)
    | Documents(all: map<Id, Blog>)
    | Message(text: string)

  datatype Response = Response(status: nat, payload: Payload)

  /** The response of a handler together with the store it leaves behind. */
  datatype Step = Step(response: Response, store: map<Id, Blog>)

  const TitleContentRequired: string := "Title and content are required."
  const ServerError: string := "Server error"
  const BlogNotFound: string := "Blog not found"
  const BlogNotFoundPatch: string := "Blog not found."
  const BlogDeleted: string := "Blog deleted successfully"

  /** The answer of every `catch` block. */
  function ServerErrorResponse(): (r: Response)
    ensures r.status == 500
  {
    Response(500, Message(ServerError))
  }

  /** Every stored post passed the schema's validation. */
  ghost predicate AllConform(m: map<Id, Blog>) {
    forall id :: id in m ==> Conforms(m[id])
  }

  /** POST `/`: create a post under the id `id` supplied by the store, at
      time `now`. `fault` says that the database throws on `save`. */
  function CreateStep(m: map<Id, Blog>, id: Id, body: BlogBody, now: Time, fault: bool): (s: Step)
    ensures s.response.status in {201, 400, 500}
    ensures s.response.status == 400 <==> !Truthy(body.blogTitle) || !Truthy(body.blogContent)
    ensures s.response.status == 400 ==> s.response.payload == Message(TitleContentRequired)
    ensures s.response.status == 201 <==>
              && Truthy(body.blogTitle) && Truthy(body.blogContent) && !fault
              && (Truthy(body.blogImageUrl) ==> ValidUrl(body.blogImageUrl.value))
    ensures s.response.status == 201 ==>
              && Truthy(body.blogTitle) && Truthy(body.blogContent)
              && var b := Blog(body.blogTitle.value, body.blogContent.value, now, OrNull(body.blogImageUrl));
                 s.store == m[id := b] && s.response.payload == Document(id, b)
    ensures s.response.status == 500 ==> s.response == ServerErrorResponse()
    ensures s.response.status != 201 ==> s.store == m
    ensures AllConform(m) ==> AllConform(s.store)
  {
    if !Truthy(body.blogTitle) || !Truthy(body.blogContent) then
      Step(Response(400, Message(TitleContentRequired)), m)
    else
      var blog := NewBlog(body.blogTitle.value, body.blogContent.value, None, OrNull(body.blogImageUrl), now);
      if fault || !Conforms(blog) then Step(ServerErrorResponse(), m)
      else Step(Response(201, Document(id, blog)), m[id := blog])
  }

  /** GET `/`: every stored document. */
  function ListStep(m: map<Id, Blog>, fault: bool): (r: Response)
    ensures r.status == 200 <==> !fault
    ensures r.status == 200 ==> r.payload.Documents? && r.payload.all == m
    ensures fault ==> r == ServerErrorResponse()
  {
    if fault then ServerErrorResponse() else Response(200, Documents(m))
  }

  /** GET `/:id`: the document stored under `id`. */
  function GetStep(m: map<Id, Blog>, id: Id, fault: bool): (r: Response)
    ensures r.status == 200 <==> !fault && id in m
    ensures r.status == 200 ==> id in m && r.payload == Document(id, m[id])
    ensures r.status == 404 <==> !fault && id !in m
    ensures r.status == 404 ==> r.payload == Message(BlogNotFound)
    ensures fault ==> r == ServerErrorResponse()
  {
    if fault then ServerErrorResponse()
    else if id !in m then Response(404, Message(BlogNotFound))
    else Response(200, Document(id, m[id]))
  }

  /** DELETE `/:id`: remove the document stored under `id`. */
  function DeleteStep(m: map<Id, Blog>, id: Id, fault: bool): (s: Step)
    ensures s.response.status == 200 <==> !fault && id in m
    ensures s.response.status == 200 ==> s.response.payload == Message(BlogDeleted)
    ensures s.response.status == 404 <==> !fault && id !in m
    ensures s.response.status == 404 ==> s.response.payload == Message(BlogNotFound)
    ensures fault ==> s.response == ServerErrorResponse()
    ensures s.store.Keys == if s.response.status == 200 then m.Keys - {id} else m.Keys
    ensures forall k :: k in s.store ==> k in m && s.store[k] == m[k]
    ensures AllConform(m) ==> AllConform(s.store)
  {
    if fault then Step(ServerErrorResponse(), m)
    else if id !in m then Step(Response(404, Message(BlogNotFound)), m)
    else Step(Response(200, Message(BlogDeleted)), m - {id})
  }

  /** The in-place field updates of PATCH: a field supplied truthy
      overwrites, any other keeps its old value; `date` never changes. */
  function ApplyPatch(b: Blog, body: BlogBody): (r: Blog)
    ensures r.date == b.date
    ensures r.title == (if Truthy(body.blogTitle) then body.blogTitle.value else b.title)
    ensures r.content == (if Truthy(body.blogContent) then body.blogContent.value else b.content)
    ensures r.image == (if Truthy(body.blogImageUrl) then body.blogImageUrl else b.image)
    ensures b.title != "" ==> r.title != ""
    ensures b.content != "" ==> r.content != ""
  {
    var b1 := if Truthy(body.blogTitle) then b.(title := body.blogTitle.value) else b;
    var b2 := if Truthy(body.blogContent) then b1.(content := body.blogContent.value) else b1;
    if Truthy(body.blogImageUrl) then b2.(image := body.blogImageUrl) else b2
  }

  /** PATCH `/:id`: update the document stored under `id` and save it. */
  function PatchStep(m: map<Id, Blog>, id: Id, body: BlogBody, fault: bool): (s: Step)
    ensures s.response.status in {200, 404, 500}
    ensures s.response.status == 404 <==> !fault && id !in m
    ensures s.response.status == 404 ==> s.response.payload == Message(BlogNotFoundPatch)
    ensures s.response.status == 200 <==> !fault && id in m && Conforms(ApplyPatch(m[id], body))
    ensures s.response.status == 200 ==>
              && id in m
              && s.store == m[id := ApplyPatch(m[id], body)]
              && s.response.payload == Document(id, ApplyPatch(m[id], body))
    ensures s.response.status == 500 ==> s.response == ServerErrorResponse()
    ensures s.response.status != 200 ==> s.store == m
    ensures AllConform(m) ==> AllConform(s.store)
    ensures (&& AllConform(m) && id in m && !fault
             && (Truthy(body.blogImageUrl) ==> ValidUrl(body.blogImageUrl.value)))
            ==> s.response.status == 200
  {
    if fault then Step(ServerErrorResponse(), m)
    else if id !in m then Step(Response(404, Message(BlogNotFoundPatch)), m)
    else
      var blog := ApplyPatch(m[id], body);
      if Conforms(blog) then Step(Response(200, Document(id, blog)), m[id := blog])
      else Step(ServerErrorResponse(), m)
  }

  /** A successful create under a fresh id adds exactly one entry and keeps
      every earlier one. */
  lemma CreateAddsOne(m: map<Id, Blog>, id: Id, body: BlogBody, now: Time, fault: bool)
    requires id !in m
    requires CreateStep(m, id, body, now, fault).response.status == 201
    ensures var s := CreateStep(m, id, body, now, fault).store;
            && s.Keys == m.Keys + {id}
            && |s| == |m| + 1
            && forall k :: k in m ==> s[k] == m[k]
  {
    var s := CreateStep(m, id, body, now, fault).store;
    assert s.Keys == m.Keys + {id};
    assert |s.Keys| == |m.Keys| + 1;
  }

  /** A post created and then fetched comes back with the supplied title
      and content, the creation time, and the supplied image URL (or null). */
  lemma CreateThenGet(m: map<Id, Blog>, id: Id, body: BlogBody, now: Time, fault: bool)
    requires CreateStep(m, id, body, now, fault).response.status == 201
    ensures Truthy(body.blogTitle) && Truthy(body.blogContent)
    ensures var g := GetStep(CreateStep(m, id, body, now, fault).store, id, false);
            g.status == 200 && g.payload.Document? && g.payload.id == id &&
            g.payload.blog == Blog(body.blogTitle.value, body.blogContent.value, now, OrNull(body.blogImageUrl))
    ensures Truthy(body.blogImageUrl) ==>
              GetStep(CreateStep(m, id, body, now, fault).store, id, false).payload.blog.image == body.blogImageUrl
  {
  }

  /** After a delete, the id is not found. */
  lemma DeleteThenGet(m: map<Id, Blog>, id: Id)
    ensures GetStep(DeleteStep(m, id, false).store, id, false) == Response(404, Message(BlogNotFound))
  {
  }

  /** Delete and patch change nothing but the entry for their own id. */
  lemma OthersUnchanged(m: map<Id, Blog>, id: Id, k: Id, body: BlogBody, fault: bool, fault': bool)
    requires k != id
    ensures GetStep(DeleteStep(m, id, fault).store, k, fault') == GetStep(m, k, fault')
    ensures GetStep(PatchStep(m, id, body, fault).store, k, fault') == GetStep(m, k, fault')
  {
  }

  /** Applying the same patch twice gives the same post as applying it once. */
  lemma ApplyPatchIdempotent(b: Blog, body: BlogBody)
    ensures ApplyPatch(ApplyPatch(b, body), body) == ApplyPatch(b, body)
  {
  }

  /** Sending the same PATCH twice leaves the same store as sending it once. */
  lemma PatchIdempotent(m: map<Id, Blog>, id: Id, body: BlogBody)
    ensures var once := PatchStep(m, id, body, false);
            && PatchStep(once.store, id, body, false).store == once.store
            && PatchStep(once.store, id, body, false).response == once.response
  {
    if id in m {
      ApplyPatchIdempotent(m[id], body);
    }
  }

  /** A post patched and then fetched comes back patched. */
  lemma PatchThenGet(m: map<Id, Blog>, id: Id, body: BlogBody)
    requires PatchStep(m, id, body, false).response.status == 200
    ensures id in m
    ensures GetStep(PatchStep(m, id, body, false).store, id, false) == Response(200, Document(id, ApplyPatch(m[id], body)))
  {
  }

  /** One request as the router dispatches it, by method and path. */
  datatype Request =
    | PostBlog(body: BlogBody, now: Time)
    | ListBlogs
    | GetBlog(id: Id)
    | DeleteBlog(id: Id)
    | PatchBlog(id: Id, body: BlogBody)

  /** The collection together with the next id of the supply. */
  datatype Store = Store(blogs: map<Id, Blog>, nextId: Id)

  /** Every stored id was handed out already, and every post conforms. */
  ghost predicate StoreValid(st: Store) {
    && (forall id :: id in st.blogs ==> id < st.nextId)
    && AllConform(st.blogs)
  }

  /** The router: one request, handled by the matching handler. A create
      that gets past the guard draws an id from the supply. */
  function Handle(st: Store, req: Request, fault: bool): (r: (Store, Response))
    ensures r.0.nextId >= st.nextId
    ensures forall k :: k in r.0.blogs && k !in st.blogs ==> k >= st.nextId
    ensures StoreValid(st) ==> StoreValid(r.0)
  {
    match req
    case PostBlog(body, now) =>
      var s := CreateStep(st.blogs, st.nextId, body, now, fault);
      (Store(s.store, if s.response.status == 400 then st.nextId else st.nextId + 1), s.response)
    case ListBlogs => (st, ListStep(st.blogs, fault))
    case GetBlog(id) => (st, GetStep(st.blogs, id, fault))
    case DeleteBlog(id) =>
      var s := DeleteStep(st.blogs, id, fault);
      (Store(s.store, st.nextId), s.response)
    case PatchBlog(id, body) =>
      var s := PatchStep(st.blogs, id, body, fault);
      (Store(s.store, st.nextId), s.response)
  }

  /** The store after a sequence of requests, each with its own fault flag. */
  function Run(st: Store, reqs: seq<(Request, bool)>): Store
    decreases |reqs|
  {
    if reqs == [] then st else Run(Handle(st, reqs[0].0, reqs[0].1).0, reqs[1..])
  }

  /** The store invariant holds after any sequence of requests, and the id
      supply never goes back. */
  lemma {:induction false} RunPreservesValid(st: Store, reqs: seq<(Request, bool)>)
    requires StoreValid(st)
    ensures StoreValid(Run(st, reqs)) && Run(st, reqs).nextId >= st.nextId
    decreases |reqs|
  {
    if reqs != [] {
      RunPreservesValid(Handle(st, reqs[0].0, reqs[0].1).0, reqs[1..]);
    }
  }

  /** An id that was handed out and is no longer stored (it was deleted,
      or its create failed) is never stored again, whatever follows. */
  lemma {:induction false} RetiredIdStaysAbsent(st: Store, reqs: seq<(Request, bool)>, id: Id)
    requires id < st.nextId && id !in st.blogs
    ensures id !in Run(st, reqs).blogs
    ensures GetStep(Run(st, reqs).blogs, id, false) == Response(404, Message(BlogNotFound))
    decreases |reqs|
  {
    if reqs != [] {
      RetiredIdStaysAbsent(Handle(st, reqs[0].0, reqs[0].1).0, reqs[1..], id);
    }
  }

  /** The document store behind the router. `nextId` is the id supply:
      every stored id is below it, so the id it hands out next is fresh. */
  class BlogStore {
    var blogs: map<Id, Blog>
    var nextId: Id

    /** The abstract state the router's `Handle` works on. */
    ghost function State(): Store
      reads this
    {
      Store(blogs, nextId)
    }

    ghost predicate Valid()
      reads this
    {
      StoreValid(State())
    }

    /** An empty collection. */
    constructor ()
      ensures Valid() && blogs == map[] && nextId == 0
    {
      blogs := map[];
      nextId := 0;
    }

    /** The id a new document gets on construction: never used before. */
    method FreshId() returns (id: Id)
      requires Valid()
      modifies this`nextId
      ensures Valid()
      ensures id !in blogs && id == old(nextId) && nextId == old(nextId) + 1
    {
      id := nextId;
      nextId := nextId + 1;
    }

    /** `blog.save()`: the schema's validation, then the write. */
    method Save(id: Id, blog: Blog, fault: bool) returns (saved: bool)
      requires Valid() && id < nextId
      modifies this`blogs
      ensures Valid()
      ensures saved <==> !fault && Conforms(blog)
      ensures blogs == if saved then old(blogs)[id := blog] else old(blogs)
    {
      saved := !fault && Conforms(blog);
      if saved {
        blogs := blogs[id := blog];
      }
    }

    /** `Blog.findById(id)`: the stored document, or null. */
    method FindById(id: Id) returns (found: Option<Blog>)
      ensures found.Some? <==> id in blogs
      ensures found.Some? ==> found.value == blogs[id]
    {
      found := if id in blogs then Some(blogs[id]) else None;
    }

    /** POST `/`. */
    method Create(body: BlogBody, now: Time, fault: bool) returns (r: Response)
      requires Valid()
      modifies this
      ensures Valid()
      ensures var s := CreateStep(old(blogs), old(nextId), body, now, fault);
              r == s.response && blogs == s.store
      ensures nextId == if r.status == 400 then old(nextId) else old(nextId) + 1
      ensures (State(), r) == Handle(old(State()), PostBlog(body, now), fault)
    {
      if !Truthy(body.blogTitle) || !Truthy(body.blogContent) {
        return Response(400, Message(TitleContentRequired));
      }
      var id := FreshId();
      var blog := NewBlog(body.blogTitle.value, body.blogContent.value, None, OrNull(body.blogImageUrl), now);
      var saved := Save(id, blog, fault);
      if saved {
        r := Response(201, Document(id, blog));
      } else {
        r := ServerErrorResponse();
      }
    }

    /** GET `/`. */
    method List(fault: bool) returns (r: Response)
      ensures r == ListStep(blogs, fault)
      ensures Handle(State(), ListBlogs, fault) == (State(), r)
    {
      if fault {
        return ServerErrorResponse();
      }
      r := Response(200, Documents(blogs));
    }

    /** GET `/:id`. */
    method Get(id: Id, fault: bool) returns (r: Response)
      ensures r == GetStep(blogs, id, fault)
      ensures Handle(State(), GetBlog(id), fault) == (State(), r)
    {
      if fault {
        return ServerErrorResponse();
      }
      var blog := FindById(id);
      if blog.None? {
        return Response(404, Message(BlogNotFound));
      }
      r := Response(200, Document(id, blog.value));
    }

    /** DELETE `/:id`: `Blog.findByIdAndDelete(id)`. */
    method Delete(id: Id, fault: bool) returns (r: Response)
      requires Valid()
      modifies this`blogs
      ensures Valid()
      ensures var s := DeleteStep(old(blogs), id, fault);
              r == s.response && blogs == s.store
      ensures (State(), r) == Handle(old(State()), DeleteBlog(id), fault)
    {
      if fault {
        return ServerErrorResponse();
      }
      var deleted := FindById(id);
      blogs := blogs - {id};
      if deleted.None? {
        return Response(404, Message(BlogNotFound));
      }
      r := Response(200, Message(BlogDeleted));
    }

    /** PATCH `/:id`: fetch, overwrite the truthy fields one by one, save. */
    method Patch(id: Id, body: BlogBody, fault: bool) returns (r: Response)
      requires Valid()
      modifies this`blogs
      ensures Valid()
      ensures var s := PatchStep(old(blogs), id, body, fault);
              r == s.response && blogs == s.store
      ensures (State(), r) == Handle(old(State()), PatchBlog(id, body), fault)
    {
      if fault {
        return ServerErrorResponse();
      }
      var found := FindById(id);
      if found.None? {
        return Response(404, Message(BlogNotFoundPatch));
      }
      var blog := found.value;
      if Truthy(body.blogTitle) {
        blog := blog.(title := body.blogTitle.value);
      }
      if Truthy(body.blogContent) {
        blog := blog.(content := body.blogContent.value);
      }
      if Truthy(body.blogImageUrl) {
        blog := blog.(image := body.blogImageUrl);
      }
      var saved := Save(id, blog, false);
      if saved {
        r := Response(200, Document(id, blog));
      } else {
        r := ServerErrorResponse();
      }
    }
  }
}
