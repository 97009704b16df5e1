/** The catalog broker's two contracts and walks over its pages. Lower-casing and ordering by name are parameters. */
module AppCatalog {
  import opened Outcomes
  import opened Texts
  import opened Cursors

  datatype App = App(slug: string, name: string, blurb: string, logo: string, noAuth: bool, managed: bool, rank: nat)

  datatype Item =
    | Slim(slug: string, name: string, logo: string, blurb: string, noAuth: bool, managed: bool)
    | Raw(slug: string, name: string, description: string, logo: string, noAuth: bool, schemes: seq<string>)

  datatype Contract = PassThrough | Contract2

  /** A status or page of 0 stands for one that is not set. */
  datatype Options = Options(contract: Contract, status: nat, hang: bool, failOnPage: nat)

  /** `limit` is the number asked for, 0 when there is none. */
  datatype Request = Request(known: bool, cursor: Option<string>, limit: int, search: string, sortByName: bool)

  datatype Page =
    | RawPage(items: seq<Item>, next: Option<string>, total: nat, currentPage: nat, totalPages: nat)
    | SlimPage(items: seq<Item>, next: Option<string>, total: nat, catalogTotal: nat)

  datatype Failure = NotFound | Aborted | Refused(status: nat) | NetworkError

  const RAW_PAGE := 500

  function SlimOf(app: App): Item {
    Slim(app.slug, app.name, app.logo, app.blurb, app.noAuth, app.managed)
  }

  function RawOf(app: App): Item {
    Raw(app.slug, app.name, app.blurb, app.logo, app.noAuth, if app.managed then ["OAUTH2"] else [])
  }

  function Items(apps: seq<App>, item: App -> Item): seq<Item> {
    if apps == [] then [] else [item(apps[0])] + Items(apps[1..], item)
  }

  predicate IsService(slug: string) {
    exists i :: 0 <= i <= |slug| && MatchesAt(slug, i, "composio")
  }

  function Catalog(apps: seq<App>): seq<App> {
    if apps == [] then [] else (if IsService(apps[0].slug) then [] else [apps[0]]) + Catalog(apps[1..])
  }

  predicate Includes(text: string, part: string) {
    exists i :: 0 <= i <= |text| && StandsAt(text, i, part)
  }

  predicate StandsAt(text: string, i: nat, part: string) {
    i + |part| <= |text| && text[i..i + |part|] == part
  }

  function Found(apps: seq<App>, search: string, lower: string -> string): seq<App> {
    if apps == [] then []
    else
      (if Includes(lower(apps[0].slug + " " + apps[0].name + " " + apps[0].blurb), search) then [apps[0]] else [])
      + Found(apps[1..], search, lower)
  }

  function Limit(asked: int): nat
    ensures 1 <= Limit(asked) <= 500
  {
    if asked == 0 || asked > 500 then 500 else if asked < 1 then 1 else asked
  }

  function Slice(apps: seq<App>, from: nat, n: nat): seq<App> {
    if from >= |apps| then [] else if from + n >= |apps| then apps[from..] else apps[from..from + n]
  }

  function NextCursor(apps: seq<App>, offset: nat, n: nat): Option<string> {
    if offset + n < |apps| then Some(EncodeCursor(offset + n)) else None
  }

  class Broker {
    const apps: seq<App>
    const lower: string -> string
    const byName: seq<App> -> seq<App>
    var options: Options
    /** Every catalog request, in order. */
    var calls: seq<Request>

    constructor (apps: seq<App>, lower: string -> string, byName: seq<App> -> seq<App>, options: Options)
      ensures this.apps == apps && this.lower == lower && this.byName == byName && this.options == options && calls == []
    {
      this.apps, this.lower, this.byName, this.options, calls := apps, lower, byName, options, [];
    }

    function Pool(asked: string, sortByName: bool): seq<App> {
      var catalog, search := Catalog(apps), lower(Trim(asked));
      var pool := if search == "" then catalog else Found(catalog, search, lower);
      if sortByName then byName(pool) else pool
    }

    /** What the walk pages through, how it is cut, and how its entries are shown. */
    function Listed(r: Request): seq<App>
      reads this`options
    {
      if options.contract.PassThrough? then apps else Pool(r.search, r.sortByName)
    }

    function PageSize(r: Request): nat
      reads this`options
      ensures PageSize(r) > 0
    {
      if options.contract.PassThrough? then RAW_PAGE else Limit(r.limit)
    }

    function ItemOf(): App -> Item
      reads this`options
    {
      if options.contract.PassThrough? then RawOf else SlimOf
    }

    function Shown(listed: seq<App>): seq<Item>
      reads this`options
    {
      Items(listed, ItemOf())
    }

    method Fetch(r: Request) returns (answer: Result<Page, Failure>)
      modifies this`calls
      ensures calls == if r.known then old(calls) + [r] else old(calls)
      ensures !r.known <==> answer == Err(NotFound)
      ensures var offset := DecodeCursor(r.cursor);
              r.known ==>
                if options.hang then answer == Err(Aborted)
                else if options.status > 0 then answer == Err(Refused(options.status))
                else if options.failOnPage == offset / 500 + 1 then answer == Err(NetworkError)
                else answer.Ok? && answer.value.items == Shown(Slice(Listed(r), offset, PageSize(r)))
                     && answer.value.next == NextCursor(Listed(r), offset, PageSize(r)) && answer.value.total == |Listed(r)|
    {
      if !r.known { return Err(NotFound); }
      calls := calls + [r];
      if options.hang { return Err(Aborted); }
      if options.status > 0 { return Err(Refused(options.status)); }
      var offset := DecodeCursor(r.cursor);
      var pageNumber := offset / 500 + 1;
      if options.failOnPage == pageNumber { return Err(NetworkError); }
      if options.contract.PassThrough? {
        var page := Slice(apps, offset, RAW_PAGE);
        return Ok(RawPage(Items(page, RawOf), NextCursor(apps, offset, RAW_PAGE), |apps|, pageNumber, (|apps| + 499) / 500));
      }
      var limit, pool := Limit(r.limit), Pool(r.search, r.sortByName);
      var page := Slice(pool, offset, limit);
      answer := Ok(SlimPage(Items(page, SlimOf), NextCursor(pool, offset, limit), |pool|, |Catalog(apps)|));
    }

    /** Follows `next_cursor` from the first page to the last. A walk that ends well has seen the whole list once, in
        order, in as many requests as it has pages; only a fault can end it otherwise. */
    method Walk(r: Request) returns (result: Result<seq<Item>, Failure>)
      requires r.known && r.cursor.None?
      modifies this`calls
      ensures result.Ok? ==> result.value == Shown(Listed(r)) && |calls| == |old(calls)| + |Pages(Listed(r), PageSize(r), 0)|
      ensures result.Err? ==> options.hang || options.status > 0 || options.failOnPage > 0
      ensures |calls| <= |old(calls)| + |Pages(Listed(r), PageSize(r), 0)|
    {
      var listed, size := Listed(r), PageSize(r);
      var items, cursor: Option<string> := [], None;
      ghost var offset, pages, item := 0, 0, ItemOf();
      WalkStarts(listed, size, item);
      hide Listed, PageSize, ItemOf, Items, Slice, Pages, NextCursor, DecodeCursor, Seen;
      while true
        invariant DecodeCursor(cursor) == offset && offset <= |listed|
        invariant Seen(listed, size, item, offset, items, pages)
        invariant |calls| == |old(calls)| + pages && pages <= |Pages(listed, size, 0)|
        decreases |listed| - offset
      {
        var answer := FetchFrom(r, cursor);
        WalkGoesOn(listed, size, item, offset, items, pages);
        pages := pages + 1;
        if answer.Err? { return Err(answer.error); }
        items := items + answer.value.items;
        if answer.value.next.None? { return Ok(items); }
        cursor, offset := answer.value.next, offset + size;
      }
    }

    method FetchFrom(r: Request, cursor: Option<string>) returns (answer: Result<Page, Failure>)
      requires r.known
      modifies this`calls
      ensures calls == old(calls) + [r.(cursor := cursor)]
      ensures answer.Err? ==> options.hang || options.status > 0 || options.failOnPage > 0
      ensures answer.Ok? ==>
                && answer.value.items == Items(Slice(Listed(r), DecodeCursor(cursor), PageSize(r)), ItemOf())
                && answer.value.next == NextCursor(Listed(r), DecodeCursor(cursor), PageSize(r))
    {
      hide Pool, Items, Slice, NextCursor, DecodeCursor, ItemOf, Limit;
      answer := Fetch(r.(cursor := cursor));
    }
  }

  /** What a walk has when the page at an offset is the next one to ask for. */
  ghost predicate Seen(listed: seq<App>, size: nat, item: App -> Item, offset: nat, items: seq<Item>, pages: nat)
    requires size > 0 && offset <= |listed|
  {
    items == Items(listed[..offset], item) && pages + |Pages(listed, size, offset)| == |Pages(listed, size, 0)|
  }

  lemma WalkStarts(listed: seq<App>, size: nat, item: App -> Item)
    requires size > 0
    ensures Seen(listed, size, item, 0, [], 0) && DecodeCursor(None) == 0
  {
    assert listed[..0] == [] && Items([], item) == [];
    hide Pages;
  }

  lemma WalkGoesOn(listed: seq<App>, size: nat, item: App -> Item, offset: nat, items: seq<Item>, pages: nat)
    requires size > 0 && offset <= |listed| && Seen(listed, size, item, offset, items, pages)
    ensures pages + 1 <= |Pages(listed, size, 0)|
    ensures var further, next := items + Items(Slice(listed, offset, size), item), NextCursor(listed, offset, size);
            if next.Some?
            then offset + size <= |listed| && DecodeCursor(next) == offset + size
                 && Seen(listed, size, item, offset + size, further, pages + 1)
            else further == Items(listed, item) && pages + 1 == |Pages(listed, size, 0)|
  {
    hide Items, Slice, Pages, DecodeCursor, EncodeCursor;
    OnePageFurther(listed, offset, size, item);
    CursorLeadsBack(offset + size);
  }

  lemma OnePageFurther(apps: seq<App>, offset: nat, size: nat, item: App -> Item)
    requires offset <= |apps| && size > 0
    ensures Items(apps[..offset], item) + Items(Slice(apps, offset, size), item)
              == Items(if offset + size < |apps| then apps[..offset + size] else apps, item)
    ensures |Pages(apps, size, offset)| == 1 + if offset + size < |apps| then |Pages(apps, size, offset + size)| else 0
  {
    hide Items;
    ItemsAppend(apps[..offset], Slice(apps, offset, size), item);
    assert apps[..offset] + Slice(apps, offset, size) == if offset + size < |apps| then apps[..offset + size] else apps;
  }

  lemma {:induction false} ItemsAppend(a: seq<App>, b: seq<App>, item: App -> Item)
    ensures Items(a + b, item) == Items(a, item) + Items(b, item)
  {
    if a == [] {
      assert a + b == b;
    } else {
      assert (a + b)[1..] == a[1..] + b;
      ItemsAppend(a[1..], b, item);
    }
  }

  // ---- pages ----

  /** The pages of a walk from an offset on. */
  function Pages(apps: seq<App>, size: nat, offset: nat): seq<seq<App>>
    requires size > 0
    decreases |apps| - offset
  {
    [Slice(apps, offset, size)] + if offset + size < |apps| then Pages(apps, size, offset + size) else []
  }

  function Joined(pages: seq<seq<App>>): seq<App> {
    if pages == [] then [] else pages[0] + Joined(pages[1..])
  }

  /** The pages are the list, cut: every app once and in order. */
  lemma {:induction false} PagesAreTheList(apps: seq<App>, size: nat, offset: nat)
    requires size > 0 && offset <= |apps|
    ensures Joined(Pages(apps, size, offset)) == apps[offset..]
    decreases |apps| - offset
  {
    hide Joined;
    var page := Slice(apps, offset, size);
    if offset + size < |apps| {
      PagesAreTheList(apps, size, offset + size);
      JoinedFirst(page, Pages(apps, size, offset + size));
      assert apps[offset..] == page + apps[offset + size..];
    } else {
      JoinedFirst(page, []);
      assert Pages(apps, size, offset) == [page] + [];
    }
  }

  lemma JoinedFirst(page: seq<App>, rest: seq<seq<App>>)
    ensures Joined([page] + rest) == page + Joined(rest) && Joined([]) == []
  {
    assert ([page] + rest)[1..] == rest;
  }

  /** There are as many pages as the list needs at this size, and one for an empty list. */
  lemma {:induction false} PageCount(apps: seq<App>, size: nat, offset: nat, pages: nat)
    requires size > 0 && offset <= |apps| && pages == |Pages(apps, size, offset)|
    ensures |apps| - offset <= pages * size
    ensures pages == 1 || (pages - 1) * size < |apps| - offset
    decreases |apps| - offset
  {
    hide Slice;
    if offset + size < |apps| {
      PageCount(apps, size, offset + size, pages - 1);
      assert pages * size == (pages - 1) * size + size;
      assert pages - 1 == 1 || (pages - 1) * size == (pages - 2) * size + size;
    }
  }

  // ---- the two contracts agree ----

  /** What both kinds of entries tell. */
  datatype Entry = Entry(slug: string, name: string, blurb: string, logo: string, noAuth: bool, managed: bool)

  function EntryOf(item: Item): Entry {
    match item
    case Slim(slug, name, logo, blurb, noAuth, managed) => Entry(slug, name, blurb, logo, noAuth, managed)
    case Raw(slug, name, description, logo, noAuth, schemes) => Entry(slug, name, description, logo, noAuth, schemes != [])
  }

  function Entries(items: seq<Item>): seq<Entry> {
    if items == [] then [] else [EntryOf(items[0])] + Entries(items[1..])
  }

  function WithoutServices(items: seq<Item>): seq<Item> {
    if items == [] then [] else (if IsService(items[0].slug) then [] else [items[0]]) + WithoutServices(items[1..])
  }

  /** A pass-through walk without the service's own toolkits tells the same as an unsearched, unsorted walk of the second
      contract, entry by entry. */
  lemma {:induction false} ContractsAgree(apps: seq<App>)
    ensures Entries(WithoutServices(Items(apps, RawOf))) == Entries(Items(Catalog(apps), SlimOf))
  {
    hide IsService;
    if apps != [] {
      var raw := Items(apps, RawOf);
      assert raw[1..] == Items(apps[1..], RawOf);
      ContractsAgree(apps[1..]);
      if IsService(apps[0].slug) {
        assert WithoutServices(raw) == WithoutServices(raw[1..]) && Catalog(apps) == Catalog(apps[1..]);
      } else {
        var rest, kept := WithoutServices(raw[1..]), Catalog(apps[1..]);
        assert WithoutServices(raw) == [raw[0]] + rest && Catalog(apps) == [apps[0]] + kept;
        assert ([raw[0]] + rest)[1..] == rest && ([apps[0]] + kept)[1..] == kept;
        assert Items([apps[0]] + kept, SlimOf) == [SlimOf(apps[0])] + Items(kept, SlimOf);
        assert ([SlimOf(apps[0])] + Items(kept, SlimOf))[1..] == Items(kept, SlimOf);
      }
    }
  }

  /** Walks of the same apps under either contract, when both end well. */
  method WalkBoth(first: Broker, second: Broker, limit: int) returns (agree: Option<bool>)
    requires first != second && first.apps == second.apps
    requires second.lower("") == "" && first.options.contract.PassThrough? && second.options.contract.Contract2?
    modifies first`calls, second`calls
    ensures agree.Some? ==> agree.value
  {
    hide Items, Entries, WithoutServices, Catalog, Found, Trim, Pages;
    var whole := Request(true, None, limit, "", false);
    var one := first.Walk(whole);
    if one.Err? { return None; }
    assert one.value == Items(first.apps, RawOf);
    var two := second.Walk(whole);
    if two.Err? { return None; }
    NothingToTrim();
    assert two.value == Items(Catalog(second.apps), SlimOf);
    ContractsAgree(first.apps);
    agree := Some(Entries(WithoutServices(one.value)) == Entries(two.value));
  }

  lemma NothingToTrim()
    ensures Trim("") == ""
  {
  }
}
