/**
 * The feed table of the settings page (`FeedList`): the row projection,
 * unfollowing and editing a feed, the title search and the edit modal.
 * `feeds` and `showFeeds` are the parent's state, written through its setters.
 */
module FeedList {
  import opened Wrappers

  datatype Category = Category(id: int, title: string)

  datatype Feed = Feed(id: int, title: string, feedUrl: string, category: Category, crawler: bool)

  /** A table row: the feed's display fields, keyed by its id. */
  datatype Row = Row(key: int, title: string, feedUrl: string, category: Category, feed: Feed)

  /** The values of the edit form's three fields. */
  datatype FormValues = FormValues(title: string, group: int, crawler: bool)

  /** How `editFeed` settled: rejected, or resolved with the updated feed or a falsy response. */
  datatype EditOutcome = EditRejected | EditResolved(data: Option<Feed>)

  /** Everything the list asks of the server. */
  datatype Call =
    | DeleteFeed(id: int)
    | EditFeed(id: int, title: string, group: int, crawler: bool)

  // ---------------------------------------------------------------------
  // Pure list transforms

  /** `tableData`: one row per shown feed, in order. */
  function TableData(feeds: seq<Feed>): (rows: seq<Row>)
    ensures |rows| == |feeds|
    ensures forall i :: 0 <= i < |feeds| ==>
      && rows[i].key == feeds[i].id
      && rows[i].title == feeds[i].title
      && rows[i].feedUrl == feeds[i].feedUrl
      && rows[i].category == feeds[i].category
      && rows[i].feed == feeds[i]
  {
    if feeds == [] then []
    else
      var f := feeds[0];
      [Row(f.id, f.title, f.feedUrl, f.category, f)] + TableData(feeds[1..])
  }

  /** The ids of a list of feeds, in order. */
  function Ids(feeds: seq<Feed>): (ids: seq<int>)
    ensures |ids| == |feeds|
    ensures forall i :: 0 <= i < |feeds| ==> ids[i] == feeds[i].id
  {
    if feeds == [] then [] else [feeds[0].id] + Ids(feeds[1..])
  }

  /** The number of feeds with the given id. */
  function CountId(feeds: seq<Feed>, id: int): (n: nat)
    ensures n <= |feeds|
    ensures n == 0 <==> id !in Ids(feeds)
  {
    if feeds == [] then 0
    else (if feeds[0].id == id then 1 else 0) + CountId(feeds[1..], id)
  }

  /** No two feeds share an id. */
  predicate UniqueIds(feeds: seq<Feed>)
  {
    forall i, j :: 0 <= i < j < |feeds| ==> feeds[i].id != feeds[j].id
  }

  /** The unfollow filter: the feeds whose id differs from `id`. */
  function WithoutFeed(feeds: seq<Feed>, id: int): (r: seq<Feed>)
    ensures |r| == |feeds| - CountId(feeds, id)
    ensures forall f :: f in r <==> f in feeds && f.id != id
  {
    if feeds == [] then []
    else if feeds[0].id == id then WithoutFeed(feeds[1..], id)
    else [feeds[0]] + WithoutFeed(feeds[1..], id)
  }

  /** The unfollow filter keeps relative order: it works piece by piece. */
  lemma {:induction false} WithoutFeedAppend(a: seq<Feed>, b: seq<Feed>, id: int)
    ensures WithoutFeed(a + b, id) == WithoutFeed(a, id) + WithoutFeed(b, id)
  {
    if a == [] {
      assert a + b == b;
    } else {
      assert (a + b)[0] == a[0] && (a + b)[1..] == a[1..] + b;
      WithoutFeedAppend(a[1..], b, id);
      if a[0].id != id {
        assert [a[0]] + (WithoutFeed(a[1..], id) + WithoutFeed(b, id))
            == ([a[0]] + WithoutFeed(a[1..], id)) + WithoutFeed(b, id);
      }
    }
  }

  /** With unique ids, unfollowing a listed feed removes exactly one row. */
  lemma {:induction false} WithoutFeedRemovesOne(feeds: seq<Feed>, id: int)
    requires UniqueIds(feeds) && id in Ids(feeds)
    ensures |WithoutFeed(feeds, id)| == |feeds| - 1
  {
    UniqueCountsOnce(feeds, id);
  }

  lemma {:induction false} UniqueCountsOnce(feeds: seq<Feed>, id: int)
    requires UniqueIds(feeds) && id in Ids(feeds)
    ensures CountId(feeds, id) == 1
  {
    if feeds[0].id == id {
      assert id !in Ids(feeds[1..]) by {
        forall k | 0 <= k < |feeds| - 1 ensures Ids(feeds[1..])[k] != id {
          assert feeds[1..][k] == feeds[k + 1];
        }
      }
    } else {
      assert id in Ids(feeds[1..]) by {
        var k :| 0 <= k < |feeds| && Ids(feeds)[k] == id;
        assert k > 0 && Ids(feeds[1..])[k - 1] == id;
      }
      UniqueCountsOnce(feeds[1..], id);
    }
  }

  /** The edit map: the feed with id `id` is replaced by `updated`, the rest stay. */
  function ReplaceFeed(feeds: seq<Feed>, id: int, updated: Feed): (r: seq<Feed>)
    ensures |r| == |feeds|
    ensures forall i :: 0 <= i < |feeds| ==> r[i] == if feeds[i].id == id then updated else feeds[i]
  {
    if feeds == [] then []
    else [if feeds[0].id == id then updated else feeds[0]] + ReplaceFeed(feeds[1..], id, updated)
  }

  /** An update that keeps the feed's id keeps the table's keys. */
  lemma ReplaceKeepsIds(feeds: seq<Feed>, id: int, updated: Feed)
    requires updated.id == id
    ensures Ids(ReplaceFeed(feeds, id, updated)) == Ids(feeds)
  {
  }

  /** `sub` occurs in `s` starting at position `i`. */
  predicate OccursAt(s: string, sub: string, i: int)
  {
    0 <= i && i + |sub| <= |s| && s[i..i + |sub|] == sub
  }

  /** JavaScript's `s.includes(sub)`: `sub` occurs in `s` at some position. */
  ghost predicate Includes(s: string, sub: string)
  {
    exists i :: OccursAt(s, sub, i)
  }

  /** A recursive check of `Includes`: a prefix here or an occurrence further on. */
  function IncludesFrom(s: string, sub: string): (r: bool)
    ensures r <==> Includes(s, sub)
    decreases |s|
  {
    if sub <= s then
      assert OccursAt(s, sub, 0);
      true
    else if s == [] then false
    else
      var found := IncludesFrom(s[1..], sub);
      IncludesShift(s, sub);
      found
  }

  /** When `sub` is not a prefix of `s`, it occurs in `s` iff it occurs in its tail. */
  lemma IncludesShift(s: string, sub: string)
    requires s != [] && !(sub <= s)
    ensures Includes(s, sub) <==> Includes(s[1..], sub)
  {
    if Includes(s[1..], sub) {
      var i :| OccursAt(s[1..], sub, i);
      assert s[1..][i..i + |sub|] == s[i + 1..i + 1 + |sub|];
      assert OccursAt(s, sub, i + 1);
    }
    if Includes(s, sub) {
      var i :| OccursAt(s, sub, i);
      assert i != 0;
      assert s[1..][i - 1..i - 1 + |sub|] == s[i..i + |sub|];
      assert OccursAt(s[1..], sub, i - 1);
    }
  }

  /** The search filter: the feeds whose title contains `value`, in order. */
  function SearchFeeds(feeds: seq<Feed>, value: string): (r: seq<Feed>)
    ensures |r| <= |feeds|
    ensures forall f :: f in r <==> f in feeds && Includes(f.title, value)
  {
    if feeds == [] then []
    else if IncludesFrom(feeds[0].title, value) then [feeds[0]] + SearchFeeds(feeds[1..], value)
    else SearchFeeds(feeds[1..], value)
  }

  /** Every title contains the empty text, so an empty search shows every feed. */
  lemma {:induction false} EmptySearchShowsAll(feeds: seq<Feed>)
    ensures SearchFeeds(feeds, "") == feeds
  {
    if feeds != [] {
      assert OccursAt(feeds[0].title, "", 0);
      EmptySearchShowsAll(feeds[1..]);
      assert feeds == [feeds[0]] + feeds[1..];
    }
  }

  /** The search filter keeps relative order: it works piece by piece. */
  lemma {:induction false} SearchAppend(a: seq<Feed>, b: seq<Feed>, value: string)
    ensures SearchFeeds(a + b, value) == SearchFeeds(a, value) + SearchFeeds(b, value)
  {
    if a == [] {
      assert a + b == b;
    } else {
      assert (a + b)[0] == a[0] && (a + b)[1..] == a[1..] + b;
      SearchAppend(a[1..], b, value);
      assert [a[0]] + (SearchFeeds(a[1..], value) + SearchFeeds(b, value))
          == ([a[0]] + SearchFeeds(a[1..], value)) + SearchFeeds(b, value);
    }
  }

  /** Unfollowing commutes with the search: a search view stays the search of the new list. */
  lemma {:induction false} UnfollowKeepsSearchView(feeds: seq<Feed>, id: int, value: string)
    ensures WithoutFeed(SearchFeeds(feeds, value), id) == SearchFeeds(WithoutFeed(feeds, id), value)
  {
    if feeds != [] {
      UnfollowKeepsSearchView(feeds[1..], id, value);
    }
  }

  // ---------------------------------------------------------------------
  // The component

  class FeedList {
    var feeds: seq<Feed>
    var showFeeds: seq<Feed>
    var feedModalVisible: bool
    var feedModalLoading: bool
    /** The feed being edited; None stands for the initial empty object. */
    var selectedFeed: Option<Feed>
    /** The edit form's values; None after `resetFields`. */
    var form: Option<FormValues>
    var calls: seq<Call>

    constructor (feeds: seq<Feed>, showFeeds: seq<Feed>)
      ensures this.feeds == feeds && this.showFeeds == showFeeds
      ensures !feedModalVisible && !feedModalLoading
      ensures selectedFeed == None && form == None && calls == []
    {
      this.feeds := feeds;
      this.showFeeds := showFeeds;
      feedModalVisible := false;
      feedModalLoading := false;
      selectedFeed := None;
      form := None;
      calls := [];
    }

    /** `handleSelectFeed`: remember the feed, open the modal and prefill the form from it. */
    method HandleSelectFeed(record: Row)
      modifies this`selectedFeed, this`feedModalVisible, this`form
      ensures selectedFeed == Some(record.feed) && feedModalVisible
      ensures form == Some(FormValues(record.feed.title, record.feed.category.id, record.feed.crawler))
    {
      selectedFeed := Some(record.feed);
      feedModalVisible := true;
      form := Some(FormValues(record.feed.title, record.feed.category.id, record.feed.crawler));
    }

    /**
     * The unfollow confirmation: delete the feed on the server and, when the
     * response is truthy, drop it from both lists.
     */
    method Unfollow(record: Row, deleted: bool)
      modifies this`feeds, this`showFeeds, this`calls
      ensures calls == old(calls) + [DeleteFeed(record.feed.id)]
      ensures deleted ==> feeds == WithoutFeed(old(feeds), record.feed.id)
                          && showFeeds == WithoutFeed(old(showFeeds), record.feed.id)
      ensures !deleted ==> feeds == old(feeds) && showFeeds == old(showFeeds)
      ensures forall value :: old(showFeeds) == SearchFeeds(old(feeds), value) ==>
        showFeeds == SearchFeeds(feeds, value)
    {
      calls := calls + [DeleteFeed(record.feed.id)];
      if deleted {
        forall value | showFeeds == SearchFeeds(feeds, value)
          ensures WithoutFeed(showFeeds, record.feed.id) == SearchFeeds(WithoutFeed(feeds, record.feed.id), value)
        {
          UnfollowKeepsSearchView(feeds, record.feed.id, value);
        }
        feeds := WithoutFeed(feeds, record.feed.id);
        showFeeds := WithoutFeed(showFeeds, record.feed.id);
      }
    }

    /**
     * `handleEditFeed`: send the edit; a truthy response replaces the feed in
     * both lists and closes the modal. When the request rejects the handler
     * stops there, so the spinner stays on and the form keeps its values.
     */
    method HandleEditFeed(feedId: int, title: string, group: int, crawler: bool, outcome: EditOutcome)
      modifies this`feeds, this`showFeeds, this`feedModalVisible, this`feedModalLoading, this`form, this`calls
      ensures calls == old(calls) + [EditFeed(feedId, title, group, crawler)]
      ensures outcome.EditRejected? ==>
        && feedModalLoading
        && feeds == old(feeds) && showFeeds == old(showFeeds)
        && feedModalVisible == old(feedModalVisible) && form == old(form)
      ensures outcome.EditResolved? ==> !feedModalLoading && form == None
      ensures outcome.EditResolved? && outcome.data.Some? ==>
        && feeds == ReplaceFeed(old(feeds), feedId, outcome.data.value)
        && showFeeds == ReplaceFeed(old(showFeeds), feedId, outcome.data.value)
        && !feedModalVisible
      ensures outcome.EditResolved? && outcome.data.None? ==>
        feeds == old(feeds) && showFeeds == old(showFeeds) && feedModalVisible == old(feedModalVisible)
    {
      feedModalLoading := true;
      calls := calls + [EditFeed(feedId, title, group, crawler)];
      if outcome.EditRejected? {
        return;
      }
      if outcome.data.Some? {
        feeds := ReplaceFeed(feeds, feedId, outcome.data.value);
        showFeeds := ReplaceFeed(showFeeds, feedId, outcome.data.value);
        feedModalVisible := false;
      }
      feedModalLoading := false;
      form := None;
    }

    /** The modal's cancel button: close it and reset the form. */
    method CancelEdit()
      modifies this`feedModalVisible, this`form
      ensures !feedModalVisible && form == None
    {
      feedModalVisible := false;
      form := None;
    }

    /** The search box's `onChange`: show the feeds whose title contains the text. */
    method Search(value: string)
      modifies this`showFeeds
      ensures showFeeds == SearchFeeds(feeds, value)
      ensures value == "" ==> showFeeds == feeds
    {
      showFeeds := SearchFeeds(feeds, value);
      if value == "" {
        EmptySearchShowsAll(feeds);
      }
    }
  }
}
