/** The loop of `get_news` that filters the provider's article list and
    builds, index for index, the records sent back (`articles`) and the
    records handed to storage (`articles_to_store`). Timestamp parsing with
    `strptime(..., '%Y-%m-%dT%H:%M:%SZ')` is passed in as `parse`: it either
    yields a date-time or raises `ValueError` (modelled as `None`).
 */
module News {
  import opened Payload

  datatype Source = Source(name: Key<string>)

  /** One entry of the provider's `articles` list. */
  datatype Article = Article(
    title: Key<string>,
    description: Key<string>,
    url: Key<string>,
    urlToImage: Key<string>,
    source: Key<Source>,
    publishedAt: Key<string>,
    author: Key<string>)

  /** The provider's decoded body. */
  datatype Headlines = Headlines(articles: Key<seq<Article>>)

  datatype DateTime = DateTime(year: int, month: int, day: int, hour: int, minute: int, second: int)

  /** An `article_data` record, as sent back to the dashboard. */
  datatype Item = Item(
    title: string,
    description: Json<string>,
    url: Json<string>,
    urlToImage: Json<string>,
    source: Json<string>,
    publishedAt: Json<string>,
    author: Json<string>)

  /** An `articles_to_store` record. */
  datatype Row = Row(
    title: string,
    description: Json<string>,
    url: Json<string>,
    source: Json<string>,
    publishedAt: DateTime)

  /** The two lists the loop builds. */
  datatype Batch = Batch(articles: seq<Item>, toStore: seq<Row>)

  const Removed := "[Removed]"
  const NoDescription := "No description available"
  const UnknownAuthor := "Unknown"

  /** The articles the loop keeps: a title that is truthy and is not the
      provider's "[Removed]" marker. */
  predicate Kept(a: Article)
  {
    a.title.Present? && Truthy(a.title.json) && a.title.json.value != Removed
  }

  /** The filter test `article['title'] and article['title'] != '[Removed]'`,
      which raises `KeyError` when the article has no title key at all. */
  function Admits(a: Article): (r: Result<bool>)
    ensures r.Ok? <==> a.title.Present?
    ensures r.Ok? ==> (r.value <==> Kept(a))
  {
    var title :- Index(a.title, "title");
    Ok(if title.Null? then false else title.value != "" && title.value != Removed)
  }

  /** `article['source']['name']`. */
  function SourceName(a: Article): Result<Json<string>>
  {
    var source :- IndexValue(a.source, "source");
    Index(source.name, "name")
  }

  /** The `article_data` dict literal for a kept article with title `title`. */
  function MakeItem(a: Article, title: string): (r: Result<Item>)
    ensures r.Ok? ==> r.value.title == title
    ensures a.url.Absent? ==> r == Err(KeyError("url"))
  {
    var url :- Index(a.url, "url");
    var source :- SourceName(a);
    var publishedAt :- Index(a.publishedAt, "publishedAt");
    Ok(Item(title, Get(a.description, Val(NoDescription)), url, Get(a.urlToImage, Val("")),
            source, publishedAt, Get(a.author, Val(UnknownAuthor))))
  }

  /** `datetime.strptime(article['publishedAt'], ...)`. */
  function Stamp(publishedAt: Json<string>, parse: string -> Option<DateTime>): (r: Result<DateTime>)
    ensures r.Ok? <==> publishedAt.Val? && parse(publishedAt.value).Some?
    ensures r.Ok? ==> parse(publishedAt.value) == Some(r.value)
    ensures r.Err? ==> r.fault == (if publishedAt.Null? then TypeError else ValueError)
  {
    match publishedAt
    case Null => Err(TypeError)
    case Val(s) => if parse(s).Some? then Ok(parse(s).value) else Err(ValueError)
  }

  /** The storage record built from a response record. */
  function ToRow(item: Item, stamp: DateTime): Row
  {
    Row(item.title, item.description, item.url, item.source, stamp)
  }

  /** Index for index, a stored record carries the response record's
      title, description, url and source. */
  predicate Agree(item: Item, row: Row)
  {
    row.title == item.title && row.description == item.description &&
    row.url == item.url && row.source == item.source
  }

  /** One iteration of the loop: `None` for a skipped article, the two
      records for a kept one, or the fault the iteration raises. */
  function Step(a: Article, parse: string -> Option<DateTime>): (r: Result<Option<(Item, Row)>>)
    ensures a.title.Absent? ==> r == Err(KeyError("title"))
    ensures r.Ok? ==> (r.value.Some? <==> Kept(a))
    ensures r.Ok? && r.value.Some? ==>
      r.value.value.0.title == a.title.json.value && Agree(r.value.value.0, r.value.value.1)
  {
    var keep :- Admits(a);
    if !keep then Ok(None)
    else
      var item :- MakeItem(a, a.title.json.value);
      var stamp :- Stamp(item.publishedAt, parse);
      Ok(Some((item, ToRow(item, stamp))))
  }

  /** The whole loop over `raws`; the earliest article that raises decides
      the fault. */
  function Collect(raws: seq<Article>, parse: string -> Option<DateTime>): (r: Result<Batch>)
    ensures r.Ok? ==> |r.value.articles| == |r.value.toStore| <= |raws|
    ensures r.Ok? ==> forall i :: 0 <= i < |r.value.articles| ==>
      Agree(r.value.articles[i], r.value.toStore[i])
  {
    if raws == [] then Ok(Batch([], []))
    else
      var b :- Collect(raws[..|raws| - 1], parse);
      var step :- Step(raws[|raws| - 1], parse);
      Ok(if step.None? then b else Batch(b.articles + [step.value.0], b.toStore + [step.value.1]))
  }

  /** The loop of `get_news`, appending to both lists as it goes. */
  method CollectArticles(raws: seq<Article>, parse: string -> Option<DateTime>) returns (r: Result<Batch>)
    ensures r == Collect(raws, parse)
  {
    var articles: seq<Item> := [];
    var toStore: seq<Row> := [];
    var i := 0;
    while i < |raws|
      invariant 0 <= i <= |raws|
      invariant Collect(raws[..i], parse) == Ok(Batch(articles, toStore))
    {
      var article := raws[i];
      assert raws[..i + 1][..i] == raws[..i];
      var keep := Admits(article);
      if keep.Err? {
        r := Err(keep.fault);
        CollectErrPersists(raws, i + 1, parse);
        return;
      }
      if keep.value {
        var item := MakeItem(article, article.title.json.value);
        if item.Err? {
          r := Err(item.fault);
          CollectErrPersists(raws, i + 1, parse);
          return;
        }
        articles := articles + [item.value];
        var stamp := Stamp(item.value.publishedAt, parse);
        if stamp.Err? {
          r := Err(stamp.fault);
          CollectErrPersists(raws, i + 1, parse);
          return;
        }
        toStore := toStore + [ToRow(item.value, stamp.value)];
      }
      i := i + 1;
    }
    assert raws[..i] == raws;
    r := Ok(Batch(articles, toStore));
  }

  /** Once a prefix of the list raises, the whole loop raises the same fault. */
  lemma {:induction false} CollectErrPersists(raws: seq<Article>, k: nat, parse: string -> Option<DateTime>)
    requires k <= |raws|
    requires Collect(raws[..k], parse).Err?
    ensures Collect(raws, parse) == Collect(raws[..k], parse)
  {
    if k < |raws| {
      assert raws[..|raws| - 1][..k] == raws[..k];
      CollectErrPersists(raws[..|raws| - 1], k, parse);
    } else {
      assert raws[..k] == raws;
    }
  }

  /** The kept articles of `raws`, in their order. */
  function Filter(raws: seq<Article>): seq<Article>
  {
    if raws == [] then []
    else Filter(raws[..|raws| - 1]) + (if Kept(raws[|raws| - 1]) then [raws[|raws| - 1]] else [])
  }

  /** `xs` is `ys` with some elements left out, the rest in the same order. */
  predicate IsSubsequence(xs: seq<Article>, ys: seq<Article>)
    decreases |ys|
  {
    if xs == [] then true
    else if ys == [] then false
    else if xs[|xs| - 1] == ys[|ys| - 1] then IsSubsequence(xs[..|xs| - 1], ys[..|ys| - 1])
    else IsSubsequence(xs, ys[..|ys| - 1])
  }

  /** The loop raises nothing exactly when no single article raises. */
  lemma {:induction false} CollectOk(raws: seq<Article>, parse: string -> Option<DateTime>)
    ensures Collect(raws, parse).Ok? <==> forall i :: 0 <= i < |raws| ==> Step(raws[i], parse).Ok?
  {
    if raws != [] {
      var init := raws[..|raws| - 1];
      CollectOk(init, parse);
      assert forall i :: 0 <= i < |init| ==> init[i] == raws[i];
    }
  }

  /** When the loop completes, the response list holds exactly the kept
      articles, in upstream order, each normalised by `MakeItem`, and the
      storage list holds each with its parsed timestamp. */
  lemma {:induction false} CollectIsFilter(raws: seq<Article>, parse: string -> Option<DateTime>)
    requires Collect(raws, parse).Ok?
    ensures var b := Collect(raws, parse).value;
      && |b.articles| == |Filter(raws)|
      && forall i :: 0 <= i < |b.articles| ==>
           var a := Filter(raws)[i];
           && Kept(a)
           && MakeItem(a, a.title.json.value) == Ok(b.articles[i])
           && Stamp(b.articles[i].publishedAt, parse).Ok?
           && b.toStore[i] == ToRow(b.articles[i], Stamp(b.articles[i].publishedAt, parse).value)
  {
    if raws != [] {
      var init := raws[..|raws| - 1];
      CollectIsFilter(init, parse);
      var last := raws[|raws| - 1];
      assert Admits(last).Ok?;
    }
  }

  /** The kept list is an order-preserving subsequence of the upstream list. */
  lemma {:induction false} FilterIsSubsequence(raws: seq<Article>)
    ensures IsSubsequence(Filter(raws), raws)
  {
    if raws != [] {
      var init := raws[..|raws| - 1];
      FilterIsSubsequence(init);
      if Kept(raws[|raws| - 1]) {
        var f := Filter(raws);
        assert f == Filter(init) + [raws[|raws| - 1]];
        assert f[..|f| - 1] == Filter(init);
      } else {
        assert raws == init + [raws[|raws| - 1]];
        assert Filter(raws) == Filter(init);
        SubsequenceOfPrefix(Filter(init), init, raws[|raws| - 1]);
      }
    }
  }

  lemma {:induction false} SubsequenceOfPrefix(xs: seq<Article>, ys: seq<Article>, y: Article)
    requires IsSubsequence(xs, ys)
    ensures IsSubsequence(xs, ys + [y])
    decreases |ys|, 1
  {
    if xs != [] {
      var zs := ys + [y];
      assert zs[..|zs| - 1] == ys;
      if xs[|xs| - 1] == y {
        SubsequenceDropLast(xs, ys);
      }
    }
  }

  lemma {:induction false} SubsequenceDropLast(xs: seq<Article>, ys: seq<Article>)
    requires xs != [] && IsSubsequence(xs, ys)
    ensures IsSubsequence(xs[..|xs| - 1], ys)
    decreases |ys|, 0
  {
    var init := xs[..|xs| - 1];
    if init != [] {
      var last := ys[|ys| - 1];
      assert ys[..|ys| - 1] + [last] == ys;
      if xs[|xs| - 1] != last {
        SubsequenceDropLast(xs, ys[..|ys| - 1]);
      }
      SubsequenceOfPrefix(init, ys[..|ys| - 1], last);
    }
  }

  /** An article is in the kept list exactly when it is in the upstream
      list and passes the title test. */
  lemma {:induction false} FilterMembers(raws: seq<Article>, a: Article)
    ensures a in Filter(raws) <==> a in raws && Kept(a)
  {
    if raws != [] {
      var init := raws[..|raws| - 1];
      FilterMembers(init, a);
      assert raws == init + [raws[|raws| - 1]];
    }
  }

  /** Filtering the concatenation of two lists filters each in turn, so
      relative order is kept. */
  lemma {:induction false} FilterAppend(xs: seq<Article>, ys: seq<Article>)
    ensures Filter(xs + ys) == Filter(xs) + Filter(ys)
    decreases |ys|
  {
    if ys == [] {
      assert xs + ys == xs;
    } else {
      var zs := xs + ys;
      assert zs[..|zs| - 1] == xs + ys[..|ys| - 1];
      assert zs[|zs| - 1] == ys[|ys| - 1];
      FilterAppend(xs, ys[..|ys| - 1]);
    }
  }

  /** Defaults come from `dict.get`: a missing description, image or
      author gets the fixed placeholder, a key that holds `null` keeps it. */
  lemma ItemDefaults(a: Article, title: string)
    requires MakeItem(a, title).Ok?
    ensures var item := MakeItem(a, title).value;
      && item.title == title
      && item.description == (if a.description.Absent? then Val(NoDescription) else a.description.json)
      && item.urlToImage == (if a.urlToImage.Absent? then Val("") else a.urlToImage.json)
      && item.author == (if a.author.Absent? then Val(UnknownAuthor) else a.author.json)
      && item.url == a.url.json && item.publishedAt == a.publishedAt.json
      && item.source == a.source.json.value.name.json
  {
  }

  /** The keys a kept article must have, and the fault raised when one is
      missing; none of these is among the exceptions the handler catches. */
  lemma MakeItemFaults(a: Article, title: string)
    ensures MakeItem(a, title).Ok? <==>
      a.url.Present? && a.source.Present? && a.source.json.Val? &&
      a.source.json.value.name.Present? && a.publishedAt.Present?
    ensures a.url.Absent? ==> MakeItem(a, title) == Err(KeyError("url"))
    ensures a.url.Present? && a.source.Absent? ==> MakeItem(a, title) == Err(KeyError("source"))
    ensures a.url.Present? && a.source == Present(Null) ==> MakeItem(a, title) == Err(TypeError)
  {
  }

  /** The articles list the loop runs over: `data.get('articles', [])`. */
  function ArticleList(h: Headlines): (r: Result<seq<Article>>)
    ensures h.articles.Absent? ==> r == Ok([])
    ensures r.Err? <==> h.articles == Present(Null)
    ensures r.Err? ==> r.fault == TypeError
    ensures h.articles.Present? && r.Ok? ==> r.value == h.articles.json.value
  {
    Deref(Get(h.articles, Val([])))
  }
}
