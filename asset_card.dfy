/**
 * One asset card of the results screen: the image lifecycle of a single
 * asset kind for a single topic. The asynchronous `fetchImage` is split into
 * the synchronous part that runs when it is called (`FetchStart`) and the
 * continuation that runs when the image request settles (`FetchCompleted`);
 * between the two any number of other events may happen, in any order.
 */
module AssetCard {
  import opened Wrappers
  import opened JsText
  import opened Types
  import opened GeminiService

  /** The props of a card; a started fetch asks for the image of exactly these. */
  datatype CardProps = CardProps(kind: AssetType, topic: string)

  /** What the picture area shows. */
  datatype CardDisplay = Spinner | Failed | Image(url: string) | Placeholder

  /** The anchor the download handler builds and clicks. */
  datatype DownloadLink = DownloadLink(href: string, filename: string)

  // ---------------------------------------------------------------------
  // Download filename

  /** `${type}-${topic.replace(/\s+/g, '-')}.png`. */
  function DownloadFilename(kind: AssetType, topic: string): (f: string)
    ensures |f| == |Label(kind)| + 1 + |HyphenateSpaceRuns(topic)| + 4
    ensures f[..|Label(kind)|] == Label(kind) && f[|f| - 4..] == ".png"
  {
    Label(kind) + "-" + HyphenateSpaceRuns(topic) + ".png"
  }

  /** The filename is the label, a hyphen, the hyphenated topic and `.png`,
      and it carries no whitespace at all. */
  lemma DownloadFilenameShape(kind: AssetType, topic: string)
    ensures var f := DownloadFilename(kind, topic);
      && f[..|Label(kind)| + 1] == Label(kind) + "-"
      && f[|Label(kind)| + 1..|f| - 4] == HyphenateSpaceRuns(topic)
      && f[|f| - 4..] == ".png"
      && SpaceFree(f)
  {
    var f := DownloadFilename(kind, topic);
    HyphenatedSpaceFree(topic);
    assert SpaceFree(".png") by {
      assert forall i :: 0 <= i < 4 ==> ".png"[i] in {'.', 'p', 'n', 'g'};
    }
    assert f == (Label(kind) + "-") + HyphenateSpaceRuns(topic) + ".png";
    forall i | 0 <= i < |f|
      ensures !IsSpace(f[i])
    {
      if i < |Label(kind)| {
        assert f[i] == Label(kind)[i];
      } else if i == |Label(kind)| {
        assert f[i] == '-';
      } else if i < |f| - 4 {
        assert f[i] == HyphenateSpaceRuns(topic)[i - |Label(kind)| - 1];
      } else {
        assert f[i] == ".png"[i - (|f| - 4)];
      }
    }
  }

  /** A topic without whitespace is used as it is. */
  lemma DownloadFilenameKeepsPlainTopic(kind: AssetType, topic: string)
    requires SpaceFree(topic)
    ensures DownloadFilename(kind, topic) == Label(kind) + "-" + topic + ".png"
  {
    HyphenateSpaceFree(topic);
  }

  /** Hyphenating the topic first changes nothing: the replacement is idempotent. */
  lemma DownloadFilenameIdempotent(kind: AssetType, topic: string)
    ensures DownloadFilename(kind, HyphenateSpaceRuns(topic)) == DownloadFilename(kind, topic)
  {
    HyphenateIdempotent(topic);
  }

  /** The filename tells which kind of asset was downloaded. */
  lemma DownloadFilenameIdentifiesKind(a: AssetType, b: AssetType, t: string, u: string)
    requires DownloadFilename(a, t) == DownloadFilename(b, u)
    ensures a == b
  {
    assert |Label(a)| >= 2 && |Label(b)| >= 2;
    assert DownloadFilename(a, t)[..2] == Label(a)[..2];
    assert DownloadFilename(b, u)[..2] == Label(b)[..2];
    if a != b {
      LabelsDistinct(a, b);
    }
  }

  // ---------------------------------------------------------------------
  // Download guard, download visibility and display priority

  /** `handleDownload`: nothing happens without a (truthy) image url;
      otherwise the link points at the image and is named after the props. */
  function Download(props: CardProps, imageUrl: Option<string>): (link: Option<DownloadLink>)
    ensures link.Some? <==> Truthy(imageUrl)
    ensures link.Some? ==> (link.value.href == imageUrl.value
                            && link.value.filename == DownloadFilename(props.kind, props.topic))
  {
    if Truthy(imageUrl) then
      Some(DownloadLink(imageUrl.value, DownloadFilename(props.kind, props.topic)))
    else
      None
  }

  /** `imageUrl && !loading`: whether the download button is rendered. */
  predicate DownloadVisible(imageUrl: Option<string>, loading: bool): (visible: bool)
    ensures visible <==> Display(imageUrl, loading, false).Image?
  {
    Truthy(imageUrl) && !loading
  }

  /** The picture area: the spinner while loading, then the failure notice,
      then the image, and the placeholder when there is nothing to show. */
  function Display(imageUrl: Option<string>, loading: bool, error: bool): (d: CardDisplay)
    ensures d == Spinner <==> loading
    ensures d == Failed <==> !loading && error
    ensures d.Image? <==> !loading && !error && Truthy(imageUrl)
    ensures d.Image? ==> d.url == imageUrl.value
  {
    if loading then Spinner
    else if error then Failed
    else if Truthy(imageUrl) then Image(imageUrl.value)
    else Placeholder
  }

  /** A visible download button always leads to a download. */
  lemma VisibleDownloadDownloads(props: CardProps, imageUrl: Option<string>, loading: bool)
    requires DownloadVisible(imageUrl, loading)
    ensures Download(props, imageUrl) == Some(DownloadLink(imageUrl.value, DownloadFilename(props.kind, props.topic)))
  {
  }

  /** The download button shows exactly when the picture area shows the
      image, except in the failure state, where a previous image stays
      downloadable behind the failure notice. */
  lemma DownloadVisibleWhileFailed(imageUrl: Option<string>, loading: bool, error: bool)
    ensures DownloadVisible(imageUrl, loading)
        <==> Display(imageUrl, loading, error).Image?
             || (Display(imageUrl, loading, error) == Failed && Truthy(imageUrl))
  {
  }

  // ---------------------------------------------------------------------
  // The card's state

  class AssetCard {
    var props: CardProps
    var imageUrl: Option<string>
    var loading: bool
    var error: bool

    /** A card is never loading and failed at once: a fetch start clears the
        error, and the error is only set by a completion, which also ends
        the loading. */
    ghost predicate Valid()
      reads this
    {
      loading ==> !error
    }

    /** The three `useState` initial values. The first run of the effect,
        right after mounting, is a `FetchStart`. */
    constructor(props: CardProps)
      ensures this.props == props
      ensures imageUrl == None && loading && !error
      ensures Valid()
    {
      this.props := props;
      imageUrl := None;
      loading := true;
      error := false;
    }

    /** The synchronous part of `fetchImage`: loading starts, the error is
        cleared and the previous image is kept. The request goes out for the
        props as they are now. */
    method FetchStart() returns (request: CardProps)
      modifies this
      ensures request == props
      ensures loading && !error
      ensures imageUrl == old(imageUrl) && props == old(props)
      ensures Valid()
    {
      loading := true;
      error := false;
      request := props;
    }

    /** The continuation of `fetchImage` once its request settles, whichever
        request that was: a url replaces the image, a failure raises the
        error and keeps the image, and loading ends either way. A success
        does not lower an error raised by another request. */
    method FetchCompleted(outcome: Result<string, ServiceError>)
      modifies this
      ensures imageUrl == (if outcome.Success? then Some(outcome.value) else old(imageUrl))
      ensures error == (outcome.Failure? || old(error))
      ensures !loading
      ensures props == old(props)
      ensures Valid()
    {
      if outcome.Success? {
        imageUrl := Some(outcome.value);
      } else {
        error := true;
      }
      loading := false;
    }

    /** The effect on `[topic, type]`: a re-render with new props starts a
        fetch; a re-render with the same props does nothing. */
    method UpdateProps(next: CardProps) returns (request: Option<CardProps>)
      requires Valid()
      modifies this
      ensures props == next
      ensures request.Some? <==> next != old(props)
      ensures request.Some? ==> request.value == next && loading && !error
      ensures request.None? ==> loading == old(loading) && error == old(error)
      ensures imageUrl == old(imageUrl)
      ensures Valid()
    {
      if next != props {
        props := next;
        var r := FetchStart();
        request := Some(r);
      } else {
        request := None;
      }
    }

    /** The regenerate button and the retry link. The button is disabled
        while loading, and the link is only rendered when not loading. */
    method Regenerate() returns (request: Option<CardProps>)
      requires Valid()
      modifies this
      ensures request.Some? <==> !old(loading)
      ensures request.Some? ==> request.value == props && !error
      ensures loading
      ensures request.None? ==> error == old(error)
      ensures imageUrl == old(imageUrl) && props == old(props)
      ensures Valid()
    {
      if loading {
        request := None;
      } else {
        var r := FetchStart();
        request := Some(r);
      }
    }
  }

  // ---------------------------------------------------------------------
  // Completions arriving out of order

  /** The one way two fetches are in flight at once: the props change while
      the first image is still loading (the regenerate button and the retry
      link are refused while loading). The requests then settle in the
      opposite order. Nothing orders the completions, so the older request's
      outcome is the one the card ends with: the image made for the old
      props replaces the newer one, and the download names it after the new
      props. A failure of either request leaves the failure notice up, since
      a success does not lower the error. */
  method StaleCompletionWins(
    props: CardProps,
    next: CardProps,
    older: Result<string, ServiceError>,
    newer: Result<string, ServiceError>)
    returns (requests: seq<CardProps>, display: CardDisplay, download: Option<DownloadLink>)
    requires next != props
    ensures requests == [props, next]
    ensures older.Success? && older.value != "" && newer.Success? ==> display == Image(older.value)
    ensures older.Success? && older.value == "" && newer.Success? ==> display == Placeholder
    ensures older.Failure? || newer.Failure? ==> display == Failed
    ensures older.Success? && older.value != "" ==>
              download == Some(DownloadLink(older.value, DownloadFilename(next.kind, next.topic)))
    ensures older.Success? && older.value == "" ==> download == None
    ensures older.Failure? && newer.Success? ==> download == Download(next, Some(newer.value))
    ensures older.Failure? && newer.Failure? ==> download == None
  {
    var card := new AssetCard(props);
    var first := card.FetchStart();
    var refused := card.Regenerate();
    assert refused.None?;
    var second := card.UpdateProps(next);
    requests := [first, second.value];
    card.FetchCompleted(newer);
    card.FetchCompleted(older);
    display := Display(card.imageUrl, card.loading, card.error);
    download := Download(card.props, card.imageUrl);
  }

  /** A first load that goes through the image service: the card ends with
      the extracted data URI, or in the failure state with no image. */
  method FirstLoad(props: CardProps, provider: string -> Result<ImageResponse, ProviderError>)
    returns (display: CardDisplay)
    ensures var reply := provider(AssetPrompt(props.topic, props.kind));
      && (reply.Failure? ==> display == Failed)
      && (reply.Success? ==>
            (display.Image? <==> exists i :: 0 <= i < |ResponseParts(reply.value)| && HasImageData(ResponseParts(reply.value)[i])))
      && (reply.Success? && display.Image? ==>
            exists i :: FirstImagePart(ResponseParts(reply.value), i)
                    && display.url == DataUri(ResponseParts(reply.value)[i].inlineData.value))
  {
    var card := new AssetCard(props);
    var request := card.FetchStart();
    var outcome := GenerateAssetImage(request.topic, request.kind, provider);
    card.FetchCompleted(outcome);
    if outcome.Success? {
      ExtractedImageIsDataUri(ResponseParts(provider(AssetPrompt(props.topic, props.kind)).value), outcome);
    }
    display := Display(card.imageUrl, card.loading, card.error);
  }

}
