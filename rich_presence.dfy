/** `RichPresence` and its `Builder`: the records are values; the builder is
    an object whose setters and `addButton` update its fields in place, and
    whose `build` validates the image strings and assembles the records. A
    Java `null` is `None`. */
module RichPresence {
  import opened Wrappers
  import opened JavaInt

  datatype Button = Button(caption: string, url: string)   // `label`, `url`

  datatype Timestamps = Timestamps(start: Option<int64>, end: Option<int64>)

  datatype Assets = Assets(largeImage: Option<string>, largeText: Option<string>,
                           smallImage: Option<string>, smallText: Option<string>)

  /** `size` is the two-element `int[]` `{size, max}`. */
  datatype Party = Party(id: string, size: seq<int32>)

  datatype Secrets = Secrets(join: Option<string>, spectate: Option<string>, matchSecret: Option<string>)

  datatype RichPresence = RichPresence(
    state: Option<string>,
    details: Option<string>,
    timestamps: Option<Timestamps>,
    assets: Option<Assets>,
    party: Option<Party>,
    secrets: Option<Secrets>,
    buttons: Option<seq<Button>>)

  /** The exceptions `build` can throw. */
  datatype BuildError =
    | IllegalArgument(message: string)   // IllegalArgumentException
    | NullPointer                        // a method call on a null field
    | IndexOutOfBounds(index: int)       // buttonUrls.get(index) past its end

  const EMPTY_IMAGE_MESSAGE: string := "RichPresence must not be built with empty image strings"

  /** The fields of a builder, as one value. */
  datatype Settings = Settings(
    state: Option<string>, details: Option<string>,
    start: Option<int64>, end: Option<int64>,
    largeImage: Option<string>, largeText: Option<string>,
    smallImage: Option<string>, smallText: Option<string>,
    id: Option<string>, size: Option<int32>, max: Option<int32>,
    join: Option<string>, spectate: Option<string>, matchSecret: Option<string>,
    buttons: Option<seq<string>>, buttonUrls: Option<seq<string>>)

  /** A fresh builder: every field `null`. */
  const EMPTY: Settings := Settings(None, None, None, None, None, None, None, None,
                                    None, None, None, None, None, None, None, None)

  /** An image key and its text are both set. */
  predicate HasPair(key: Option<string>, text: Option<string>)
  {
    key.Some? && text.Some?
  }

  /** `key != null && (key.isEmpty() || text.isEmpty())`, evaluated left to
      right: a non-empty key with a `null` text dereferences `null`. */
  function EmptyImage(key: Option<string>, text: Option<string>): (r: Result<bool, BuildError>)
  {
    if key.None? then Ok(false)
    else if key.value == "" then Ok(true)
    else if text.None? then Err(NullPointer)
    else Ok(text.value == "")
  }

  /** The assets `build` makes: none unless a key/text pair is set, and an
      `IllegalArgumentException` when a set key or its text is empty; the
      large pair is checked before the small one. */
  function AssetsOf(s: Settings): (r: Result<Option<Assets>, BuildError>)
  {
    if !(HasPair(s.largeImage, s.largeText) || HasPair(s.smallImage, s.smallText)) then Ok(None)
    else
      match EmptyImage(s.largeImage, s.largeText)
      case Err(e) => Err(e)
      case Ok(true) => Err(IllegalArgument(EMPTY_IMAGE_MESSAGE))
      case Ok(false) =>
        match EmptyImage(s.smallImage, s.smallText)
        case Err(e) => Err(e)
        case Ok(true) => Err(IllegalArgument(EMPTY_IMAGE_MESSAGE))
        case Ok(false) => Ok(Some(Assets(s.largeImage, s.largeText, s.smallImage, s.smallText)))
  }

  function PartyOf(s: Settings): (r: Option<Party>)
  {
    if s.id.Some? && s.size.Some? && s.max.Some? then Some(Party(s.id.value, [s.size.value, s.max.value]))
    else None
  }

  function SecretsOf(s: Settings): (r: Option<Secrets>)
  {
    if s.join.Some? || s.spectate.Some? || s.matchSecret.Some? then Some(Secrets(s.join, s.spectate, s.matchSecret))
    else None
  }

  /** Button `i` pairs the `i`-th name with the `i`-th url. */
  function Pairs(names: seq<string>, urls: seq<string>): (r: seq<Button>)
    requires |names| <= |urls|
    decreases |names|
  {
    if names == [] then [] else [Button(names[0], urls[0])] + Pairs(names[1..], urls[1..])
  }

  lemma {:induction false} PairsAt(names: seq<string>, urls: seq<string>)
    requires |names| <= |urls|
    ensures |Pairs(names, urls)| == |names|
    ensures forall i :: 0 <= i < |names| ==> Pairs(names, urls)[i] == Button(names[i], urls[i])
    decreases |names|
  {
    if names != [] {
      PairsAt(names[1..], urls[1..]);
    }
  }

  /** The button list of `build`: the names zipped with the urls, and `null`
      when there are none. The loop dereferences `buttonUrls` and indexes it
      for every name. */
  function ButtonList(names: Option<seq<string>>, urls: Option<seq<string>>): (r: Result<Option<seq<Button>>, BuildError>)
  {
    if names.None? || names.value == [] then Ok(None)
    else if urls.None? then Err(NullPointer)
    else if |urls.value| < |names.value| then Err(IndexOutOfBounds(|urls.value|))
    else Ok(Some(Pairs(names.value, urls.value)))
  }

  /** `build()`: the record made from the settings, or what it throws. A
      builder whose button lists are paired and whose set image keys all have
      non-empty texts always builds. */
  function BuildOf(s: Settings): (r: Result<RichPresence, BuildError>)
    ensures ButtonsPaired(s) && KeysHaveTexts(s) && !HasEmptyImage(s) ==> r.Ok?
  {
    match AssetsOf(s)
    case Err(e) => Err(e)
    case Ok(assets) =>
      match ButtonList(s.buttons, s.buttonUrls)
      case Err(e) => Err(e)
      case Ok(buttons) =>
        Ok(RichPresence(s.state, s.details, Some(Timestamps(s.start, s.end)), assets,
                        PartyOf(s), SecretsOf(s), buttons))
  }

  /** The two button lists are both `null`, or both set and of one length:
      what `addButton` keeps. */
  predicate ButtonsPaired(s: Settings)
  {
    && s.buttons.None? == s.buttonUrls.None?
    && (s.buttons.Some? ==> |s.buttons.value| == |s.buttonUrls.value|)
  }

  /** Every set image key has its text set: what the builder's documentation
      asks of `setAssets`. */
  predicate KeysHaveTexts(s: Settings)
  {
    && (s.largeImage.Some? ==> s.largeText.Some?)
    && (s.smallImage.Some? ==> s.smallText.Some?)
  }

  /** A set key, or the text of a set key, is empty. */
  predicate HasEmptyImage(s: Settings)
  {
    || (s.largeImage.Some? && (s.largeImage.value == "" || (s.largeText.Some? && s.largeText.value == "")))
    || (s.smallImage.Some? && (s.smallImage.value == "" || (s.smallText.Some? && s.smallText.value == "")))
  }

  /** `build` copies the text and always makes timestamps carrying `start`
      and `end`; it fails exactly when the assets or the buttons fail. */
  lemma BuildCopiesText(s: Settings)
    ensures BuildOf(s).Err? <==> AssetsOf(s).Err? || ButtonList(s.buttons, s.buttonUrls).Err?
    ensures BuildOf(s).Ok? ==>
      && BuildOf(s).value.state == s.state && BuildOf(s).value.details == s.details
      && BuildOf(s).value.timestamps == Some(Timestamps(s.start, s.end))
  {
  }

  /** Assets are made exactly when a key/text pair is set, and hold the four
      strings as given. */
  lemma BuildAssets(s: Settings)
    requires BuildOf(s).Ok?
    ensures BuildOf(s).value.assets.Some? <==> HasPair(s.largeImage, s.largeText) || HasPair(s.smallImage, s.smallText)
    ensures BuildOf(s).value.assets.Some? ==>
      BuildOf(s).value.assets.value == Assets(s.largeImage, s.largeText, s.smallImage, s.smallText)
  {
  }

  /** When every set key has its text, `build` throws
      `IllegalArgumentException` exactly when a pair is set and some set key
      or its text is empty, and throws nothing else out of the assets. */
  lemma BuildRejectsEmptyImages(s: Settings)
    requires KeysHaveTexts(s)
    ensures AssetsOf(s).Err? <==> (HasPair(s.largeImage, s.largeText) || HasPair(s.smallImage, s.smallText)) && HasEmptyImage(s)
    ensures AssetsOf(s).Err? ==> AssetsOf(s).error == IllegalArgument(EMPTY_IMAGE_MESSAGE)
  {
  }

  /** A non-empty key whose text is `null`, next to a complete pair, is
      dereferenced: the check the code assumes cannot fail. */
  lemma BuildNullTextFails(s: Settings)
    requires s.largeImage.Some? && s.largeImage.value != "" && s.largeText.None?
    requires HasPair(s.smallImage, s.smallText)
    ensures BuildOf(s) == Err(NullPointer)
  {
  }

  /** A party is made exactly when its id, size and max are set, with the
      size array `[size, max]`. */
  lemma BuildParty(s: Settings)
    requires BuildOf(s).Ok?
    ensures BuildOf(s).value.party.Some? <==> s.id.Some? && s.size.Some? && s.max.Some?
    ensures BuildOf(s).value.party.Some? ==>
      BuildOf(s).value.party.value == Party(s.id.value, [s.size.value, s.max.value])
  {
  }

  /** Secrets are made exactly when one of the three is set. */
  lemma BuildSecrets(s: Settings)
    requires BuildOf(s).Ok?
    ensures BuildOf(s).value.secrets.Some? <==> s.join.Some? || s.spectate.Some? || s.matchSecret.Some?
    ensures BuildOf(s).value.secrets.Some? ==> BuildOf(s).value.secrets.value == Secrets(s.join, s.spectate, s.matchSecret)
  {
  }

  /** With the lists kept paired, the buttons never fail: button `i` is the
      `i`-th name with the `i`-th url, and no buttons give `null`. */
  lemma {:induction false} BuildButtons(s: Settings)
    requires ButtonsPaired(s)
    ensures ButtonList(s.buttons, s.buttonUrls).Ok?
    ensures var r := ButtonList(s.buttons, s.buttonUrls).value;
      && (r.None? <==> s.buttons.None? || s.buttons.value == [])
      && (r.Some? ==>
            && |r.value| == |s.buttons.value|
            && forall i :: 0 <= i < |r.value| ==> r.value[i] == Button(s.buttons.value[i], s.buttonUrls.value[i]))
  {
    if s.buttons.Some? && s.buttons.value != [] {
      PairsAt(s.buttons.value, s.buttonUrls.value);
    }
  }

  /** A fresh builder builds an empty presence with empty timestamps. */
  lemma BuildEmpty()
    ensures BuildOf(EMPTY) == Ok(RichPresence(None, None, Some(Timestamps(None, None)), None, None, None, None))
  {
  }

  class Builder {
    var state: Option<string>
    var details: Option<string>
    var start: Option<int64>
    var end: Option<int64>
    var largeImage: Option<string>
    var largeText: Option<string>
    var smallImage: Option<string>
    var smallText: Option<string>
    var id: Option<string>
    var size: Option<int32>
    var max: Option<int32>
    var join: Option<string>
    var spectate: Option<string>
    var matchSecret: Option<string>
    var buttons: Option<seq<string>>
    var buttonUrls: Option<seq<string>>

    function Fields(): Settings
      reads this
    {
      Settings(state, details, start, end, largeImage, largeText, smallImage, smallText,
               id, size, max, join, spectate, matchSecret, buttons, buttonUrls)
    }

    constructor ()
      ensures Fields() == EMPTY
    {
      state, details := None, None;
      start, end := None, None;
      largeImage, largeText, smallImage, smallText := None, None, None, None;
      id, size, max := None, None, None;
      join, spectate, matchSecret := None, None, None;
      buttons, buttonUrls := None, None;
    }

    method SetText(details: Option<string>, state: Option<string>) returns (r: Builder)
      modifies this
      ensures r == this
      ensures Fields() == old(Fields()).(details := details, state := state)
    {
      this.state := state;
      this.details := details;
      r := this;
    }

    method SetTimestamps(start: Option<int64>, end: Option<int64>) returns (r: Builder)
      modifies this
      ensures r == this
      ensures Fields() == old(Fields()).(start := start, end := end)
    {
      this.start := start;
      this.end := end;
      r := this;
    }

    method SetAssets(largeImage: Option<string>, largeText: Option<string>,
                     smallImage: Option<string>, smallText: Option<string>) returns (r: Builder)
      modifies this
      ensures r == this
      ensures Fields() == old(Fields()).(largeImage := largeImage, largeText := largeText,
                                         smallImage := smallImage, smallText := smallText)
    {
      this.largeImage := largeImage;
      this.largeText := largeText;
      this.smallImage := smallImage;
      this.smallText := smallText;
      r := this;
    }

    /** `size` and `max` are `int` parameters, so both become set. */
    method SetPartyInfo(id: Option<string>, size: int32, max: int32) returns (r: Builder)
      modifies this
      ensures r == this
      ensures Fields() == old(Fields()).(id := id, size := Some(size), max := Some(max))
    {
      this.id := id;
      this.size := Some(size);
      this.max := Some(max);
      r := this;
    }

    method SetSecrets(join: Option<string>, spectate: Option<string>, matchSecret: Option<string>) returns (r: Builder)
      modifies this
      ensures r == this
      ensures Fields() == old(Fields()).(join := join, spectate := spectate, matchSecret := matchSecret)
    {
      this.join := join;
      this.spectate := spectate;
      this.matchSecret := matchSecret;
      r := this;
    }

    /** `addButton`: makes both lists when `buttons` is `null`, then appends
        the name and the url. A `buttonUrls` made `null` by hand while
        `buttons` is set is dereferenced after the name was appended. */
    method AddButton(name: string, url: string) returns (r: Result<Builder, BuildError>)
      modifies this
      ensures var was := old(Fields());
        && buttons == Some(if was.buttons.Some? then was.buttons.value + [name] else [name])
        && (was.buttons.Some? && was.buttonUrls.None? ==> buttonUrls == None && r == Err(NullPointer))
        && (was.buttons.None? || was.buttonUrls.Some? ==>
              && r == Ok(this)
              && buttonUrls == Some(if was.buttons.Some? then was.buttonUrls.value + [url] else [url]))
        && Fields() == was.(buttons := buttons, buttonUrls := buttonUrls)
      ensures ButtonsPaired(old(Fields())) ==> ButtonsPaired(Fields()) && r == Ok(this)
    {
      if buttons.None? {
        buttons := Some([]);
        buttonUrls := Some([]);
        assert [] + [name] == [name] && [] + [url] == [url];
      }
      buttons := Some(buttons.value + [name]);
      if buttonUrls.None? {
        return Err(NullPointer);
      }
      buttonUrls := Some(buttonUrls.value + [url]);
      r := Ok(this);
    }

    /** `build()`: checks the image strings, makes the records, and fills the
        button list in a loop, one button per name. */
    method Build() returns (r: Result<RichPresence, BuildError>)
      ensures r == BuildOf(Fields())
    {
      var timestamps := Timestamps(start, end);
      var assets: Option<Assets> := None;
      if (largeImage.Some? && largeText.Some?) || (smallImage.Some? && smallText.Some?) {
        var largeEmpty := EmptyImage(largeImage, largeText);
        if largeEmpty.Err? {
          return Err(largeEmpty.error);
        }
        if largeEmpty.value {
          return Err(IllegalArgument(EMPTY_IMAGE_MESSAGE));
        }
        var smallEmpty := EmptyImage(smallImage, smallText);
        if smallEmpty.Err? {
          return Err(smallEmpty.error);
        }
        if smallEmpty.value {
          return Err(IllegalArgument(EMPTY_IMAGE_MESSAGE));
        }
        assets := Some(Assets(largeImage, largeText, smallImage, smallText));
      }
      assert AssetsOf(Fields()) == Ok(assets);

      var party: Option<Party> := None;
      if id.Some? && size.Some? && max.Some? {
        party := Some(Party(id.value, [size.value, max.value]));
      }

      var secrets: Option<Secrets> := None;
      if join.Some? || spectate.Some? || matchSecret.Some? {
        secrets := Some(Secrets(join, spectate, matchSecret));
      }

      var list: seq<Button> := [];
      if buttons.Some? {
        var names := buttons.value;
        var i := 0;
        while i < |names|
          invariant 0 <= i <= |names|
          invariant i > 0 ==> buttonUrls.Some? && i <= |buttonUrls.value|
          invariant |list| == i
          invariant forall k :: 0 <= k < i ==> list[k] == Button(names[k], buttonUrls.value[k])
        {
          if buttonUrls.None? {
            return Err(NullPointer);
          }
          if i >= |buttonUrls.value| {
            return Err(IndexOutOfBounds(i));
          }
          list := list + [Button(names[i], buttonUrls.value[i])];
          i := i + 1;
        }
        if names != [] {
          PairsAt(names, buttonUrls.value);
          assert list == Pairs(names, buttonUrls.value);
        }
      }
      var buttonList := if list == [] then None else Some(list);
      r := Ok(RichPresence(state, details, Some(timestamps), assets, party, secrets, buttonList));
    }
  }
}
