/**
 * How an error text from the download engine becomes the message shown to
 * the user (bot.py:271-282): an ordered, case-sensitive substring ladder in
 * which the first match wins and the fallback embeds the raw text.
 */
module ErrorText {
  import opened Text

  const MaxFileSizeMb: nat := 49

  /** The user-facing categories of an engine error. */
  datatype ErrorKind = TooLarge | Unavailable | Private | NotYetAvailable | Generic

  const TooLargeMarker := "File is larger than max-filesize"
  const UnavailableMarker := "Video unavailable"
  const PrivateMarker := "Private video"
  const PremiereMarker := "Premiere"

  /** Every specific message starts with this; the generic one does not. */
  const ErrorPrefix := "❌ Error: "
  const TooLargeMessage := ErrorPrefix + "Video is larger than the 49MB limit allowed by the bot."
  const UnavailableMessage := ErrorPrefix + "This video is unavailable."
  const PrivateMessage := ErrorPrefix + "This video is private."
  const NotYetAvailableMessage :=
    ErrorPrefix + "Livestreams/premieres that haven't finished cannot be downloaded yet."
  const GenericPrefix := "❌ Download Error: "

  /** The if/elif ladder of bot.py:275-282, first match wins. */
  function Classify(text: string): (k: ErrorKind)
    ensures k == TooLarge <==> Occurs(text, TooLargeMarker)
    ensures k == Unavailable <==>
      !Occurs(text, TooLargeMarker) && Occurs(text, UnavailableMarker)
    ensures k == Private <==>
      !Occurs(text, TooLargeMarker) && !Occurs(text, UnavailableMarker) && Occurs(text, PrivateMarker)
    ensures k == NotYetAvailable <==>
      !Occurs(text, TooLargeMarker) && !Occurs(text, UnavailableMarker) &&
      !Occurs(text, PrivateMarker) && Occurs(text, PremiereMarker)
  {
    ContainsIsOccurs(text, TooLargeMarker);
    ContainsIsOccurs(text, UnavailableMarker);
    ContainsIsOccurs(text, PrivateMarker);
    ContainsIsOccurs(text, PremiereMarker);
    if Contains(text, TooLargeMarker) then TooLarge
    else if Contains(text, UnavailableMarker) then Unavailable
    else if Contains(text, PrivateMarker) then Private
    else if Contains(text, PremiereMarker) then NotYetAvailable
    else Generic
  }

  /** The message for a category; the generic one carries the raw text. */
  function MessageFor(k: ErrorKind, text: string): string {
    match k
    case TooLarge => TooLargeMessage
    case Unavailable => UnavailableMessage
    case Private => PrivateMessage
    case NotYetAvailable => NotYetAvailableMessage
    case Generic => GenericPrefix + text
  }

  /** `error_message` as it stands after the ladder (bot.py:273-282). */
  function DownloadErrorMessage(text: string): string {
    MessageFor(Classify(text), text)
  }

  /** The raw text reaches the user exactly when no marker occurs in it, and
      then the message is the generic prefix followed by the text. */
  lemma GenericMessageOnlyWithoutMarkers(text: string)
    ensures DownloadErrorMessage(text) == GenericPrefix + text <==>
      !Occurs(text, TooLargeMarker) && !Occurs(text, UnavailableMarker) &&
      !Occurs(text, PrivateMarker) && !Occurs(text, PremiereMarker)
  {
    var k := Classify(text);
    if k != Generic {
      MessagesDistinguishKinds(k, Generic, text, text);
    }
  }

  /** The five messages are pairwise different, so the user can tell the categories apart. */
  lemma MessagesDistinguishKinds(k1: ErrorKind, k2: ErrorKind, t1: string, t2: string)
    requires k1 != k2
    ensures MessageFor(k1, t1) != MessageFor(k2, t2)
  {
    var m1, m2 := MessageFor(k1, t1), MessageFor(k2, t2);
    if k1 == Generic || k2 == Generic {
      assert GenericPrefix[2] == 'D' && ErrorPrefix[2] == 'E';
      assert m1[2] != m2[2];
    } else {
      assert |TooLargeMessage| == 64 && |UnavailableMessage| == 35;
      assert |PrivateMessage| == 31 && |NotYetAvailableMessage| == 78;
    }
  }

  /** An error mentioning "Private video" is reported as private, one mentioning
      "Video unavailable" as unavailable, and the two messages differ. */
  lemma PrivateAndUnavailableDiffer(p: string, v: string)
    requires p == "ERROR: " + PrivateMarker
    requires v == "ERROR: " + UnavailableMarker
    ensures Classify(p) == Private && Classify(v) == Unavailable
    ensures DownloadErrorMessage(p) != DownloadErrorMessage(v)
  {
    assert p[7..20] == PrivateMarker;
    assert OccursAt(p, PrivateMarker, 7);
    assert v[7..7 + |UnavailableMarker|] == UnavailableMarker;
    assert OccursAt(v, UnavailableMarker, 7);
    assert forall j :: 0 <= j < |p| ==> p[j] != 'V';
    forall i: nat | i + |UnavailableMarker| <= |p|
      ensures !OccursAt(p, UnavailableMarker, i)
    {
      assert p[i] != UnavailableMarker[0];
    }
    MessagesDistinguishKinds(Private, Unavailable, p, v);
  }
}
