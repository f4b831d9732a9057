/**
 * The presence line of the card (script.js:110-137): a decision on the first entry of
 * `userPresences`, by JavaScript truthiness of `userPresenceType`, `placeId`,
 * `rootPlaceId` and `universeId`, giving the presence text, its CSS class and the
 * game text.
 */
module Presence {
  import opened Js

  /** An entry of `userPresences`; each number may be absent or null. */
  datatype UserPresence = UserPresence(
    userPresenceType: Option<int>,
    placeId: Option<int>,
    rootPlaceId: Option<int>,
    universeId: Option<int>)

  /** The presence response body; `userPresences` is `None` when it is missing or null. */
  datatype PresenceBody = PresenceBody(userPresences: Option<seq<UserPresence>>)

  /** What the presence decision writes: presence text, presence class, game text. */
  datatype PresenceView = PresenceView(text: string, cls: string, game: string)

  const OfflineText := "Çevrimdışı"
  const OnlineText := "Çevrimiçi"
  const InGameText := "Oyunda"
  const PlayingText := "Oynanıyor"
  const PlacePrefix := "Place ID: "
  const NoGame := "—"

  /** The presence value the presence lookup resolves to: the first entry of `userPresences`, or null (script.js:60). */
  function FirstPresence(userPresences: Option<seq<UserPresence>>): (r: Option<UserPresence>)
    ensures r.Some? <==> userPresences.Some? && userPresences.value != []
    ensures r.Some? ==> r.value == userPresences.value[0]
  {
    if userPresences.Some? && userPresences.value != [] then Some(userPresences.value[0]) else None
  }

  /** `p.placeId || p.rootPlaceId || null`: the place whose id the game text shows. */
  function ShownPlace(p: UserPresence): (r: Option<int>)
    ensures r.Some? ==> r.value != 0
    ensures r.None? <==> !TruthyNumber(p.placeId) && !TruthyNumber(p.rootPlaceId)
    ensures TruthyNumber(p.placeId) ==> r == p.placeId
    ensures !TruthyNumber(p.placeId) && TruthyNumber(p.rootPlaceId) ==> r == p.rootPlaceId
  {
    if TruthyNumber(p.placeId) then p.placeId
    else if TruthyNumber(p.rootPlaceId) then p.rootPlaceId
    else None
  }

  /** The presence decision on a non-null presence entry. */
  function Classify(p: UserPresence): PresenceView
  {
    var isOnline := TruthyNumber(p.userPresenceType) && p.userPresenceType.value != 0;
    if isOnline then
      if TruthyNumber(p.placeId) || TruthyNumber(p.universeId) then
        var place := ShownPlace(p);
        PresenceView(InGameText, "online", if place.Some? then PlacePrefix + IntText(place.value) else PlayingText)
      else
        PresenceView(OnlineText, "online", NoGame)
    else
      PresenceView(OfflineText, "offline", NoGame)
  }

  /**
   * The decision table: the class is "online" exactly for a truthy presence type; the
   * text is one of the three states, chosen by the truthiness of the type and of the
   * place and universe ids; a game text other than "—" appears exactly in a game.
   */
  lemma DecisionTable(p: UserPresence)
    ensures var r := Classify(p);
      && (r.cls == "online" || r.cls == "offline")
      && (r.cls == "online" <==> TruthyNumber(p.userPresenceType))
      && (r.text == OfflineText <==> !TruthyNumber(p.userPresenceType))
      && (r.text == InGameText <==>
            TruthyNumber(p.userPresenceType) && (TruthyNumber(p.placeId) || TruthyNumber(p.universeId)))
      && (r.text == OnlineText <==>
            TruthyNumber(p.userPresenceType) && !TruthyNumber(p.placeId) && !TruthyNumber(p.universeId))
      && (r.game == NoGame <==> r.text != InGameText)
  {
  }

  /**
   * While in a game, the game text names the place shown (the place id, else the root
   * place id), and says only "Oynanıyor" when neither is known.
   */
  lemma InGameGameText(p: UserPresence)
    requires TruthyNumber(p.userPresenceType) && (TruthyNumber(p.placeId) || TruthyNumber(p.universeId))
    ensures Classify(p).text == InGameText
    ensures ShownPlace(p).None? ==> Classify(p).game == PlayingText
    ensures ShownPlace(p).Some? ==> Classify(p).game == PlacePrefix + IntText(ShownPlace(p).value)
    ensures TruthyNumber(p.placeId) ==> Classify(p).game == PlacePrefix + IntText(p.placeId.value)
  {
  }

  /** Two in-game presences that name a place show the same game text exactly when they name the same place. */
  lemma GameTextIdentifiesPlace(p: UserPresence, q: UserPresence)
    requires TruthyNumber(p.userPresenceType) && (TruthyNumber(p.placeId) || TruthyNumber(p.universeId))
    requires TruthyNumber(q.userPresenceType) && (TruthyNumber(q.placeId) || TruthyNumber(q.universeId))
    requires ShownPlace(p).Some? && ShownPlace(q).Some?
    ensures Classify(p).game == Classify(q).game <==> ShownPlace(p) == ShownPlace(q)
  {
    var a, b := ShownPlace(p).value, ShownPlace(q).value;
    if Classify(p).game == Classify(q).game {
      assert PlacePrefix + IntText(a) == PlacePrefix + IntText(b);
      assert IntText(a) == (PlacePrefix + IntText(a))[|PlacePrefix|..];
      assert IntText(b) == (PlacePrefix + IntText(b))[|PlacePrefix|..];
      IntTextInjective(a, b);
    }
  }

  /** The worked cases of the presence decision. */
  lemma PresenceScenarios()
    ensures Classify(UserPresence(Some(0), None, None, None)) == PresenceView(OfflineText, "offline", NoGame)
    ensures Classify(UserPresence(None, Some(5), None, Some(7))) == PresenceView(OfflineText, "offline", NoGame)
    ensures Classify(UserPresence(Some(2), Some(123), None, None)) == PresenceView(InGameText, "online", "Place ID: 123")
    ensures Classify(UserPresence(Some(2), None, Some(99), Some(4))) == PresenceView(InGameText, "online", "Place ID: 99")
    ensures Classify(UserPresence(Some(2), Some(0), Some(0), Some(4))) == PresenceView(InGameText, "online", PlayingText)
    ensures Classify(UserPresence(Some(1), None, Some(99), None)) == PresenceView(OnlineText, "online", NoGame)
  {
    assert IntText(123) == "123";
    assert IntText(99) == "99";
  }
}
