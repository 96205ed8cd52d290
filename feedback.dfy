/** The feedback page of src/app/feedback/page.js: the nested feedback map
    (group → generation → feedback entries) flattened into display rows,
    groups last-first and everything inside a group in order, with the
    eager/lazy image rule; and the page's one fetch transition. JavaScript
    objects are modelled as sequences of key/value pairs in key order. */
module Feedback {
  import opened Common

  /** One feedback entry as the API returns it. */
  datatype Entry = Entry(
    feedbackId: string,
    userEmail: string,
    rating: string,
    stars: string,
    textFeedback: Option<string>,
    generatedUrl: Option<string>)

  /** Generation id → feedback entries, in key order. */
  type Generations = seq<(string, seq<Entry>)>

  /** Group id → generations, in key order. */
  type FeedbackData = seq<(string, Generations)>

  /** The em dash shown for a missing review or image. */
  const Dash: string := "\U{2014}"

  /** Only the first three images of each generation load eagerly. */
  const EagerCount: nat := 3

  datatype ImageCell = NoImage | Thumbnail(url: string, eager: bool)

  /** One rendered row; `index` is the entry's position in its own
      generation's array. */
  datatype Row = Row(groupId: string, genId: string, entry: Entry, index: nat, review: string, image: ImageCell)

  /** The review cell: the text when it is a non-empty string, else a dash. */
  function ReviewText(e: Entry): (t: string)
    ensures Truthy(e.textFeedback) ==> t == e.textFeedback.value
    ensures !Truthy(e.textFeedback) ==> t == Dash
  {
    if Truthy(e.textFeedback) then e.textFeedback.value else Dash
  }

  /** The image cell: a thumbnail, eager for the first three entries of a
      generation and lazy after, or a dash with no image. */
  function ImageFor(e: Entry, index: nat): (c: ImageCell)
    ensures c.Thumbnail? <==> Truthy(e.generatedUrl)
    ensures c.Thumbnail? ==> e.generatedUrl == Some(c.url) && (c.eager <==> index < 3)
  {
    if Truthy(e.generatedUrl) then Thumbnail(e.generatedUrl.value, index < EagerCount) else NoImage
  }

  /** A row shows its own entry as the page's cell rules say. */
  predicate WellFormed(r: Row)
  {
    r.review == ReviewText(r.entry) && r.image == ImageFor(r.entry, r.index)
  }

  /** `feedbackArr.map((fb, index) => …)` for one generation. */
  function GenerationRows(groupId: string, genId: string, entries: seq<Entry>): (rows: seq<Row>)
    ensures |rows| == |entries|
    ensures forall i :: 0 <= i < |rows| ==>
      rows[i].groupId == groupId && rows[i].genId == genId &&
      rows[i].entry == entries[i] && rows[i].index == i && WellFormed(rows[i])
  {
    seq(|entries|, i requires 0 <= i < |entries| =>
      Row(groupId, genId, entries[i], i, ReviewText(entries[i]), ImageFor(entries[i], i)))
  }

  /** `Object.entries(generations).map(…)`, flattened, for one group. */
  function GroupRows(groupId: string, gens: Generations): (rows: seq<Row>)
    ensures forall r :: r in rows ==> r.groupId == groupId && WellFormed(r)
    ensures gens != [] ==> |gens[0].1| <= |rows| && rows[..|gens[0].1|] == GenerationRows(groupId, gens[0].0, gens[0].1)
  {
    if gens == [] then [] else GenerationRows(groupId, gens[0].0, gens[0].1) + GroupRows(groupId, gens[1..])
  }

  function Reverse<T>(s: seq<T>): (r: seq<T>)
    ensures |r| == |s|
    ensures forall i :: 0 <= i < |s| ==> r[i] == s[|s| - 1 - i]
  {
    if s == [] then [] else Reverse(s[1..]) + [s[0]]
  }

  /** The rows of the groups of `groups`, in the order given. */
  function Flatten(groups: FeedbackData): (rows: seq<Row>)
    ensures forall r :: r in rows ==> WellFormed(r)
  {
    if groups == [] then [] else GroupRows(groups[0].0, groups[0].1) + Flatten(groups[1..])
  }

  /** `Object.entries(data).reverse().map(…)`, flattened: every row the page
      renders, top to bottom. */
  function Rows(data: FeedbackData): (rows: seq<Row>)
    ensures forall r :: r in rows ==> WellFormed(r)
    ensures data != [] ==>
      var first := GroupRows(data[|data| - 1].0, data[|data| - 1].1);
      |first| <= |rows| && rows[..|first|] == first
  {
    Flatten(Reverse(data))
  }

  function EntryCount(gens: Generations): nat
  {
    if gens == [] then 0 else |gens[0].1| + EntryCount(gens[1..])
  }

  function TotalEntries(data: FeedbackData): nat
  {
    if data == [] then 0 else EntryCount(data[0].1) + TotalEntries(data[1..])
  }

  /** Generations are rendered one after the other, each from index 0. */
  lemma {:induction false} GroupRowsAppend(groupId: string, a: Generations, b: Generations)
    ensures GroupRows(groupId, a + b) == GroupRows(groupId, a) + GroupRows(groupId, b)
  {
    if a == [] {
      assert a + b == b;
    } else {
      assert (a + b)[0] == a[0] && (a + b)[1..] == a[1..] + b;
      GroupRowsAppend(groupId, a[1..], b);
    }
  }

  /** One row per entry of the group. */
  lemma {:induction false} GroupRowsCount(groupId: string, gens: Generations)
    ensures |GroupRows(groupId, gens)| == EntryCount(gens)
  {
    if gens != [] {
      GroupRowsCount(groupId, gens[1..]);
    }
  }

  lemma {:induction false} FlattenAppend(a: FeedbackData, b: FeedbackData)
    ensures Flatten(a + b) == Flatten(a) + Flatten(b)
  {
    if a == [] {
      assert a + b == b;
    } else {
      assert (a + b)[0] == a[0] && (a + b)[1..] == a[1..] + b;
      FlattenAppend(a[1..], b);
    }
  }

  lemma {:induction false} ReverseAppend<T>(a: seq<T>, b: seq<T>)
    ensures Reverse(a + b) == Reverse(b) + Reverse(a)
  {
    var l, r := Reverse(a + b), Reverse(b) + Reverse(a);
    assert |l| == |r|;
    forall i | 0 <= i < |l| ensures l[i] == r[i] {
      if i < |b| {
        assert l[i] == (a + b)[|a| + |b| - 1 - i] == b[|b| - 1 - i];
      } else {
        assert l[i] == (a + b)[|a| + |b| - 1 - i] == a[|a| - 1 - (i - |b|)];
      }
    }
  }

  /** The groups are rendered last-first: the rows of `a + b` are those of
      `b` followed by those of `a`. */
  lemma RowsAppend(a: FeedbackData, b: FeedbackData)
    ensures Rows(a + b) == Rows(b) + Rows(a)
  {
    ReverseAppend(a, b);
    FlattenAppend(Reverse(b), Reverse(a));
  }

  /** A single group contributes its generations' rows in key order. */
  lemma RowsOfOneGroup(groupId: string, gens: Generations)
    ensures Rows([(groupId, gens)]) == GroupRows(groupId, gens)
  {
    assert Reverse([(groupId, gens)]) == [(groupId, gens)];
    assert Flatten([(groupId, gens)]) == GroupRows(groupId, gens) + Flatten([]);
  }

  /** There are exactly as many rows as feedback entries. */
  lemma {:induction false} RowCount(data: FeedbackData)
    ensures |Rows(data)| == TotalEntries(data)
  {
    if data != [] {
      assert data == [data[0]] + data[1..];
      RowsAppend([data[0]], data[1..]);
      RowsOfOneGroup(data[0].0, data[0].1);
      GroupRowsCount(data[0].0, data[0].1);
      RowCount(data[1..]);
    }
  }

  /** Row `r` shows entry `r.index` of generation `j` of group `k`. */
  predicate RowAt(data: FeedbackData, k: int, j: int, r: Row)
  {
    0 <= k < |data| && 0 <= j < |data[k].1| &&
    data[k].0 == r.groupId && data[k].1[j].0 == r.genId &&
    r.index < |data[k].1[j].1| && data[k].1[j].1[r.index] == r.entry
  }

  lemma {:induction false} GroupRowsSound(groupId: string, gens: Generations, r: Row)
    requires r in GroupRows(groupId, gens)
    ensures WellFormed(r) && r.groupId == groupId
    ensures exists j :: 0 <= j < |gens| && gens[j].0 == r.genId && r.index < |gens[j].1| && gens[j].1[r.index] == r.entry
  {
    if r in GenerationRows(groupId, gens[0].0, gens[0].1) {
      var rows := GenerationRows(groupId, gens[0].0, gens[0].1);
      var i :| 0 <= i < |rows| && rows[i] == r;
      assert gens[0].1[r.index] == r.entry;
    } else {
      GroupRowsSound(groupId, gens[1..], r);
      var j :| 0 <= j < |gens[1..]| && gens[1..][j].0 == r.genId && r.index < |gens[1..][j].1| && gens[1..][j].1[r.index] == r.entry;
      assert gens[j + 1] == gens[1..][j];
    }
  }

  lemma {:induction false} FlattenSound(groups: FeedbackData, r: Row)
    requires r in Flatten(groups)
    ensures exists k :: 0 <= k < |groups| && r in GroupRows(groups[k].0, groups[k].1)
  {
    if r !in GroupRows(groups[0].0, groups[0].1) {
      FlattenSound(groups[1..], r);
      var k :| 0 <= k < |groups[1..]| && r in GroupRows(groups[1..][k].0, groups[1..][k].1);
      assert groups[k + 1] == groups[1..][k];
    }
  }

  /** Every rendered row shows an entry of `data` at the position it
      records, under that entry's group and generation ids, and shows it by
      the cell rules: so an image loads eagerly exactly when its index
      within its own generation is below 3. */
  lemma RowsSound(data: FeedbackData, r: Row)
    requires r in Rows(data)
    ensures WellFormed(r)
    ensures r.image.Thumbnail? ==> (r.image.eager <==> r.index < 3)
    ensures exists k, j :: RowAt(data, k, j, r)
  {
    FlattenSound(Reverse(data), r);
    var k :| 0 <= k < |data| && r in GroupRows(Reverse(data)[k].0, Reverse(data)[k].1);
    var g := data[|data| - 1 - k];
    GroupRowsSound(g.0, g.1, r);
    var j :| 0 <= j < |g.1| && g.1[j].0 == r.genId && r.index < |g.1[j].1| && g.1[j].1[r.index] == r.entry;
    assert RowAt(data, |data| - 1 - k, j, r);
  }

  /** The page's state. */
  datatype FeedbackPage = FeedbackPage(data: FeedbackData, loading: bool)

  const InitialPage: FeedbackPage := FeedbackPage([], true)

  /** How the feedback request ends: the parsed body, or a rejection. */
  datatype FetchReply = Json(body: FeedbackData) | FetchFailed

  /** The fetch effect: on success the body becomes `data`; either way
      `loading` is cleared. */
  function AfterFetch(page: FeedbackPage, reply: FetchReply): (p: FeedbackPage)
    ensures !p.loading
    ensures reply.Json? ==> p.data == reply.body
    ensures reply.FetchFailed? ==> p.data == page.data
  {
    match reply
    case Json(body) => FeedbackPage(body, false)
    case FetchFailed => FeedbackPage(page.data, false)
  }

  datatype FeedbackView = LoadingFeedback | NoFeedback | FeedbackRows(rows: seq<Row>)

  /** What the page renders: the loading message first, then the empty
      message for an empty `data`, otherwise the rows (possibly none, when
      every group is empty). */
  function Render(page: FeedbackPage): (v: FeedbackView)
    ensures v == LoadingFeedback <==> page.loading
    ensures v == NoFeedback <==> !page.loading && page.data == []
    ensures v.FeedbackRows? ==> page.data != [] && v.rows == Rows(page.data)
  {
    if page.loading then LoadingFeedback
    else if |page.data| == 0 then NoFeedback
    else FeedbackRows(Rows(page.data))
  }

  /** The page starts in its loading state; a failed fetch ends in the empty
      state with no rows. */
  lemma FetchLifecycle(body: FeedbackData)
    ensures Render(InitialPage) == LoadingFeedback
    ensures Render(AfterFetch(InitialPage, FetchFailed)) == NoFeedback
    ensures body != [] ==> Render(AfterFetch(InitialPage, Json(body))) == FeedbackRows(Rows(body))
    ensures |Rows(body)| == TotalEntries(body)
  {
    RowCount(body);
  }
}
