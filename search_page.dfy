/**
 * The search page's controller (script.js): a form submission that issues
 * one search request, three visibility flags (loading indicator, results
 * container, empty-state container), the result cards it renders, and the
 * detail modal a card opens.
 *
 * The network is not modelled: a submission records the request it would
 * send, and its outcome arrives as a separate event, either the response's
 * `videos` list (absent or present) or a failure.
 */
module SearchPage {
  import opened Wrappers
  import opened Strings
  import opened Duration

  /** The description a card carries when the record has none (script.js:124). */
  const NoDescription: string := "No description available"
  /** The one alert a failed search raises (script.js:88). */
  const SearchFailedAlert: string := "An error occurred while searching. Please try again."
  const EmbedPrefix: string := "https://www.youtube.com/embed/"
  const EmbedSuffix: string := "?autoplay=0"
  const WatchPrefix: string := "https://youtube.com/watch?v="

  /**
   * One entry of the response's `videos` list. `score` is the score already
   * rendered to one decimal place; `views`, `likes` and `comments` are the
   * counters as the text they take in a data attribute.
   */
  datatype Video = Video(
    id: string,
    title: string,
    channel: string,
    thumbnail: string,
    duration: nat,
    score: string,
    views: string,
    likes: string,
    comments: string,
    description: Option<string>)

  /** The JSON body of the search request. */
  datatype SearchRequest = SearchRequest(query: string, count: string, sort: string)

  /** The data attributes of a card's "View Details" button. */
  datatype Details = Details(
    videoId: string,
    title: string,
    channel: string,
    views: string,
    likes: string,
    comments: string,
    score: string,
    description: string)

  /** What a rendered card shows, and the details its button carries. */
  datatype Card = Card(
    thumbnail: string,
    durationLabel: string,
    scoreLabel: string,
    title: string,
    channel: string,
    viewsLabel: string,
    likesLabel: string,
    commentsLabel: string,
    details: Details)

  /** The page's mode, read off the three visibility flags. */
  datatype ViewState = Idle | Loading | Results | Empty

  /**
   * The description a card keeps: the record's own when it is present and
   * non-empty (JavaScript's `||` treats "" as missing), the placeholder
   * otherwise.
   */
  function DescriptionOrPlaceholder(d: Option<string>): (r: string)
    ensures r != ""
    ensures d.Some? && d.value != "" ==> r == d.value
    ensures d.None? || d.value == "" ==> r == NoDescription
  {
    if d.Some? && d.value != "" then d.value else NoDescription
  }

  /** The player URL for a video: the id between a fixed prefix and suffix. */
  function EmbedUrl(videoId: string): (u: string)
    ensures Between(EmbedPrefix, EmbedSuffix, u) == Some(videoId)
  {
    BetweenRoundTrip(EmbedPrefix, videoId, EmbedSuffix);
    EmbedPrefix + videoId + EmbedSuffix
  }

  /** The external watch-page URL for a video. */
  function WatchUrl(videoId: string): (u: string)
    ensures Between(WatchPrefix, "", u) == Some(videoId)
  {
    BetweenRoundTrip(WatchPrefix, videoId, "");
    assert WatchPrefix + videoId == WatchPrefix + videoId + "";
    WatchPrefix + videoId
  }

  /**
   * One result card. Its duration label reads back as the record's
   * duration, and its button keeps every field the detail view needs.
   */
  function RenderCard(v: Video, formatNumber: string -> string): (c: Card)
    ensures c.durationLabel == FormatDuration(v.duration)
    ensures ParseDuration(c.durationLabel) == Some(v.duration)
    ensures c.thumbnail == v.thumbnail && c.title == v.title && c.channel == v.channel
    ensures c.scoreLabel == v.score
    ensures c.viewsLabel == formatNumber(v.views) && c.likesLabel == formatNumber(v.likes)
    ensures c.commentsLabel == formatNumber(v.comments)
    ensures c.details.videoId == v.id && c.details.title == v.title && c.details.channel == v.channel
    ensures c.details.views == v.views && c.details.likes == v.likes && c.details.comments == v.comments
    ensures c.details.score == v.score
    ensures c.details.description == DescriptionOrPlaceholder(v.description)
  {
    FormatDurationRoundTrip(v.duration);
    Card(
      v.thumbnail,
      FormatDuration(v.duration),
      v.score,
      v.title,
      v.channel,
      formatNumber(v.views),
      formatNumber(v.likes),
      formatNumber(v.comments),
      Details(v.id, v.title, v.channel, v.views, v.likes, v.comments, v.score,
              DescriptionOrPlaceholder(v.description)))
  }

  /**
   * The search form and what it shows. `formatNumber` stands for the
   * browser's locale-aware integer formatting.
   */
  class Page {
    const formatNumber: string -> string
    var loadingShown: bool
    var resultsShown: bool
    var noResultsShown: bool
    /** The text of the result counter. */
    var resultCount: string
    /** The cards currently in the results container, in order. */
    var cards: seq<Card>
    /** Every search request issued, in order. */
    var requests: seq<SearchRequest>
    /** Every alert raised, in order. */
    var alerts: seq<string>

    /**
     * At most one of the three containers is visible, and a visible
     * results container holds cards and a counter that matches them.
     */
    ghost predicate Valid()
      reads this
    {
      && (loadingShown ==> !resultsShown && !noResultsShown)
      && !(resultsShown && noResultsShown)
      && (resultsShown ==> |cards| > 0 && resultCount == Decimal(|cards|))
    }

    /** The single mode the flags stand for; Idle when nothing is shown. */
    function State(): (s: ViewState)
      reads this
      requires Valid()
      ensures s == Loading <==> loadingShown
      ensures s == Results <==> resultsShown
      ensures s == Empty <==> noResultsShown
    {
      if loadingShown then Loading
      else if resultsShown then Results
      else if noResultsShown then Empty
      else Idle
    }

    constructor (formatNumber: string -> string)
      ensures Valid() && State() == Idle
      ensures this.formatNumber == formatNumber
      ensures cards == [] && requests == [] && alerts == []
    {
      this.formatNumber := formatNumber;
      loadingShown, resultsShown, noResultsShown := false, false, false;
      resultCount := "";
      cards, requests, alerts := [], [], [];
    }

    /**
     * The form's submit handler up to the request: a query that is empty
     * once trimmed does nothing at all; any other query shows the loading
     * indicator alone and issues one request with the trimmed query.
     */
    method Submit(rawQuery: string, count: string, sort: string) returns (sent: bool)
      requires Valid()
      modifies this
      ensures Valid()
      ensures sent <==> Trim(rawQuery) != ""
      ensures !sent ==> unchanged(this)
      ensures sent ==> loadingShown && !resultsShown && !noResultsShown
      ensures sent ==> requests == old(requests) + [SearchRequest(Trim(rawQuery), count, sort)]
      ensures cards == old(cards) && resultCount == old(resultCount) && alerts == old(alerts)
    {
      var query := Trim(rawQuery);
      if query == "" {
        sent := false;
        return;
      }
      loadingShown := true;
      resultsShown := false;
      noResultsShown := false;
      requests := requests + [SearchRequest(query, count, sort)];
      sent := true;
    }

    /**
     * A response body arrived. A non-empty `videos` list replaces the cards
     * and shows the results alone; an empty or absent one shows the empty
     * state alone and leaves the (hidden) cards as they were.
     */
    method OnResponse(videos: Option<seq<Video>>)
      requires Valid()
      modifies this
      ensures Valid()
      ensures !loadingShown
      ensures requests == old(requests) && alerts == old(alerts)
      ensures videos.Some? && videos.value != [] ==>
        && resultsShown && !noResultsShown
        && resultCount == Decimal(|videos.value|)
        && |cards| == |videos.value|
        && forall i :: 0 <= i < |cards| ==> cards[i] == RenderCard(videos.value[i], formatNumber)
      ensures videos.None? || videos.value == [] ==>
        noResultsShown && !resultsShown && cards == old(cards) && resultCount == old(resultCount)
    {
      loadingShown := false;
      if videos.Some? && |videos.value| > 0 {
        DisplayVideoResults(videos.value);
        resultCount := Decimal(|videos.value|);
        resultsShown := true;
        noResultsShown := false;
      } else {
        noResultsShown := true;
        resultsShown := false;
      }
    }

    /** A failed request or an unreadable body: loading is hidden and one alert raised. */
    method OnFailure()
      requires Valid()
      modifies this`loadingShown, this`alerts
      ensures Valid()
      ensures !loadingShown
      ensures alerts == old(alerts) + [SearchFailedAlert]
    {
      loadingShown := false;
      alerts := alerts + [SearchFailedAlert];
    }

    /**
     * Empties the results container and appends one card per video, in order.
     * A helper of `OnResponse`, which calls it only with a non-empty list and
     * re-establishes `Valid()` by setting the counter and the flags after it.
     */
    method DisplayVideoResults(videos: seq<Video>)
      modifies this`cards
      ensures |cards| == |videos|
      ensures forall i :: 0 <= i < |videos| ==> cards[i] == RenderCard(videos[i], formatNumber)
    {
      cards := [];
      for i := 0 to |videos|
        invariant |cards| == i
        invariant forall j :: 0 <= j < i ==> cards[j] == RenderCard(videos[j], formatNumber)
      {
        cards := cards + [RenderCard(videos[i], formatNumber)];
      }
    }
  }

  /** The text fields of the detail dialog. */
  datatype DetailText = DetailText(
    title: string,
    viewsLabel: string,
    likesLabel: string,
    commentsLabel: string,
    scoreLabel: string,
    channel: string,
    description: string,
    watchLink: string)

  /** The detail dialog; it is reused, each opening overwriting every field. */
  class VideoModal {
    const formatNumber: string -> string
    var shown: bool
    /** The player frame's source. */
    var frameSrc: string
    var text: DetailText

    constructor (formatNumber: string -> string)
      ensures this.formatNumber == formatNumber
      ensures !shown && frameSrc == ""
    {
      this.formatNumber := formatNumber;
      shown := false;
      frameSrc := "";
      text := DetailText("", "", "", "", "", "", "", "");
    }

    /** Fills every field from a card's details and shows the dialog. */
    method Open(d: Details)
      modifies this
      ensures shown && frameSrc == EmbedUrl(d.videoId)
      ensures text.title == d.title && text.channel == d.channel && text.description == d.description
      ensures text.viewsLabel == formatNumber(d.views) + " views"
      ensures text.likesLabel == formatNumber(d.likes) + " likes"
      ensures text.commentsLabel == formatNumber(d.comments) + " comments"
      ensures text.scoreLabel == "Score: " + d.score
      ensures text.watchLink == WatchUrl(d.videoId)
    {
      text := DetailText(
        d.title,
        formatNumber(d.views) + " views",
        formatNumber(d.likes) + " likes",
        formatNumber(d.comments) + " comments",
        "Score: " + d.score,
        d.channel,
        d.description,
        WatchUrl(d.videoId));
      frameSrc := EmbedUrl(d.videoId);
      shown := true;
    }

    /** The dialog was dismissed: the player's source is cleared, nothing else changes. */
    method OnHidden()
      modifies this`shown, this`frameSrc
      ensures !shown && frameSrc == ""
    {
      shown := false;
      frameSrc := "";
    }
  }

  /** A click on the "View Details" button of the `index`-th card. */
  method ViewDetails(page: Page, modal: VideoModal, index: nat)
    requires index < |page.cards|
    modifies modal
    ensures var d := page.cards[index].details;
      && modal.shown && modal.frameSrc == EmbedUrl(d.videoId)
      && modal.text == DetailText(
           d.title,
           modal.formatNumber(d.views) + " views",
           modal.formatNumber(d.likes) + " likes",
           modal.formatNumber(d.comments) + " comments",
           "Score: " + d.score,
           d.channel,
           d.description,
           WatchUrl(d.videoId))
  {
    modal.Open(page.cards[index].details);
  }

  // ---------------------------------------------------------------------------
  // Whole interactions, from a fresh page
  // ---------------------------------------------------------------------------

  /** A whitespace-only query sends nothing and changes nothing. */
  method BlankQueryScenario(formatNumber: string -> string, rawQuery: string)
    returns (sent: bool, state: ViewState, requestCount: nat)
    requires forall i :: 0 <= i < |rawQuery| ==> IsJsWhitespace(rawQuery[i])
    ensures !sent && state == Idle && requestCount == 0
  {
    TrimEmptyIff(rawQuery);
    var page := new Page(formatNumber);
    sent := page.Submit(rawQuery, "10", "relevance");
    state := page.State();
    requestCount := |page.requests|;
  }

  /** A search answered with two videos shows two cards and the counter "2". */
  method TwoResultsScenario(formatNumber: string -> string, rawQuery: string, v1: Video, v2: Video)
    returns (state: ViewState, cardCount: nat, counter: string)
    requires Trim(rawQuery) != ""
    ensures state == Results && cardCount == 2 && counter == "2"
  {
    var page := new Page(formatNumber);
    var sent := page.Submit(rawQuery, "10", "relevance");
    page.OnResponse(Some([v1, v2]));
    state, cardCount, counter := page.State(), |page.cards|, page.resultCount;
  }

  /** A search answered with an empty list shows the empty state alone. */
  method EmptyResultsScenario(formatNumber: string -> string, rawQuery: string)
    returns (state: ViewState)
    requires Trim(rawQuery) != ""
    ensures state == Empty
  {
    var page := new Page(formatNumber);
    var sent := page.Submit(rawQuery, "10", "relevance");
    page.OnResponse(Some([]));
    state := page.State();
  }

  /**
   * A single search that fails hides everything and raises exactly one
   * alert: results and empty state stay as the submission left them.
   */
  method FailedSearchScenario(formatNumber: string -> string, rawQuery: string)
    returns (state: ViewState, alertCount: nat)
    requires Trim(rawQuery) != ""
    ensures state == Idle && alertCount == 1
  {
    var page := new Page(formatNumber);
    var sent := page.Submit(rawQuery, "10", "relevance");
    page.OnFailure();
    state, alertCount := page.State(), |page.alerts|;
  }

  /**
   * Opening the details of a record without a description shows the
   * placeholder; dismissing the dialog clears the player.
   */
  method DetailScenario(formatNumber: string -> string, v: Video)
    returns (shownDescription: string, srcWhileOpen: string, srcAfterClose: string)
    requires v.description.None?
    ensures shownDescription == NoDescription
    ensures Between(EmbedPrefix, EmbedSuffix, srcWhileOpen) == Some(v.id)
    ensures srcAfterClose == ""
  {
    var page := new Page(formatNumber);
    page.DisplayVideoResults([v]);
    var modal := new VideoModal(formatNumber);
    ViewDetails(page, modal, 0);
    shownDescription, srcWhileOpen := modal.text.description, modal.frameSrc;
    modal.OnHidden();
    srcAfterClose := modal.frameSrc;
  }
}
