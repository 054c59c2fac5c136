/** The game client composable: the last fetched list of games, two error
    slots and a loading flag, and the operations that list, create and delete
    games through the backend. Each backend reply is a parameter. */
module Games {
  import opened Outcomes
  import opened WebStorage
  import opened Types
  import opened Platforms

  const NoDataMessage := "No data available!"
  const NotAuthenticatedMessage := "Not authenticated!"
  const NoUserIdMessage := "No user id available!"
  const NoPlatformMessage := "Please select at least one platform!"
  const AddFailedPrefix := "Failed to add game! "
  const DeleteFailedPrefix := "Failed to delete game! "
  const PlaceholderImage := "https://picsum.photos/500/500"

  datatype Credentials = Credentials(token: string, userId: string)

  /** A request that reached the backend, with the `auth-token` header it carried. */
  datatype Request =
    | CreateRequest(authToken: string, body: NewGame)
    | DeleteRequest(id: string, authToken: string)

  /** `getTokenAndUserId`: the stored token is checked first, then the user id. */
  function GetTokenAndUserId(items: map<string, string>): (r: Result<Credentials>)
    ensures r.Failure? <==> !HasValue(items, TokenKey) || !HasValue(items, UserIdKey)
    ensures r.Failure? ==> (r.error == NotAuthenticatedMessage <==> !HasValue(items, TokenKey))
    ensures r.Failure? ==> (r.error == NoUserIdMessage <==> HasValue(items, TokenKey))
    ensures r.Success? ==>
              && TokenKey in items && UserIdKey in items
              && r.value == Credentials(items[TokenKey], items[UserIdKey])
              && r.value.token != "" && r.value.userId != ""
  {
    var token := GetItem(items, TokenKey);
    var userId := GetItem(items, UserIdKey);
    if !Truthy(token) then Failure(NotAuthenticatedMessage)
    else if !Truthy(userId) then Failure(NoUserIdMessage)
    else Success(Credentials(token.value, userId.value))
  }

  /** `validateGame`: only the platform selection is checked; the game itself is not looked at. */
  function ValidateGame(game: NewGame, platforms: seq<string>): (r: Option<string>)
    ensures r.Some? <==> |platforms| == 0
    ensures r.Some? ==> r.value == NoPlatformMessage
  {
    if |platforms| == 0 then Some(NoPlatformMessage) else None
  }

  lemma ValidateIgnoresGame(g1: NewGame, g2: NewGame, platforms: seq<string>)
    ensures ValidateGame(g1, platforms) == ValidateGame(g2, platforms)
  {
  }

  /** The two checks `addGame` runs before sending anything, in source order. */
  function AddPrecheck(items: map<string, string>, game: NewGame, platforms: seq<string>): (r: Result<Credentials>)
    ensures r.Success? <==> GetTokenAndUserId(items).Success? && |platforms| > 0
    ensures r.Success? ==> r == GetTokenAndUserId(items)
    ensures !HasValue(items, TokenKey) ==> r == Failure(NotAuthenticatedMessage)
    ensures HasValue(items, TokenKey) && !HasValue(items, UserIdKey) ==> r == Failure(NoUserIdMessage)
    ensures GetTokenAndUserId(items).Success? && |platforms| == 0 ==> r == Failure(NoPlatformMessage)
  {
    var creds := GetTokenAndUserId(items);
    if creds.Failure? then creds
    else
      var invalid := ValidateGame(game, platforms);
      if invalid.Some? then Failure(invalid.value) else creds
  }

  /** The fields of a draft that the user typed in and that go to the backend unchanged. */
  predicate SameEnteredFields(a: NewGame, b: NewGame)
  {
    a.title == b.title && a.description == b.description && a.price == b.price
    && a.rating == b.rating && a.genre == b.genre && a.releaseDate == b.releaseDate
  }

  /** The record `setDefaultValues` builds from a draft. */
  function WithDefaults(game: NewGame, platforms: seq<string>, userId: string): (r: NewGame)
    ensures SameEnteredFields(r, game)
    ensures r.imageURL == PlaceholderImage
    ensures r.platform == Join(platforms)
    ensures r.createdBy == Some(userId)
  {
    NewGame(game.title, game.description, PlaceholderImage, game.price, game.rating,
            Join(platforms), game.genre, game.releaseDate, Some(userId))
  }

  /** The defaulted record depends on the draft only through its entered fields. */
  lemma DefaultsIgnoreOtherFields(g1: NewGame, g2: NewGame, platforms: seq<string>, userId: string)
    requires SameEnteredFields(g1, g2)
    ensures WithDefaults(g1, platforms, userId) == WithDefaults(g2, platforms, userId)
  {
  }

  /** The platform string sent to the backend gives back the selection, in order. */
  lemma DefaultsKeepSelection(game: NewGame, platforms: seq<string>, userId: string)
    requires |platforms| >= 1
    requires forall i :: 0 <= i < |platforms| ==> !ContainsSeparator(platforms[i])
    ensures Split(WithDefaults(game, platforms, userId).platform) == platforms
  {
    SplitJoin(platforms);
  }

  /** The list left after `games.filter(game => game._id !== id)`. */
  function WithoutId(games: seq<Game>, id: string): (r: seq<Game>)
    ensures |r| <= |games|
    ensures forall g :: g in r <==> g in games && g.id != id
  {
    if |games| == 0 then []
    else if games[0].id != id then [games[0]] + WithoutId(games[1..], id)
    else WithoutId(games[1..], id)
  }

  /** The filter keeps the relative order: it distributes over concatenation. */
  lemma {:induction false} WithoutIdAppend(a: seq<Game>, b: seq<Game>, id: string)
    ensures WithoutId(a + b, id) == WithoutId(a, id) + WithoutId(b, id)
  {
    if |a| > 0 {
      assert (a + b)[1..] == a[1..] + b;
      WithoutIdAppend(a[1..], b, id);
    } else {
      assert a + b == b;
    }
  }

  /** Nothing is removed when no game has the id. */
  lemma {:induction false} WithoutIdAbsent(games: seq<Game>, id: string)
    requires forall i :: 0 <= i < |games| ==> games[i].id != id
    ensures WithoutId(games, id) == games
  {
    if |games| > 0 {
      WithoutIdAbsent(games[1..], id);
      assert [games[0]] + games[1..] == games;
    }
  }

  /** Removing the same id twice is the same as removing it once. */
  lemma WithoutIdIdempotent(games: seq<Game>, id: string)
    ensures WithoutId(WithoutId(games, id), id) == WithoutId(games, id)
  {
    var r := WithoutId(games, id);
    forall i | 0 <= i < |r| ensures r[i].id != id {
      assert r[i] in r;
    }
    WithoutIdAbsent(r, id);
  }

  /** `deleteGameFromServer`: the Error it throws, if any. */
  function DeleteGameFromServer(response: Response<()>): (failure: Option<string>)
    ensures failure.None? <==> response.Ok?
    ensures response.Rejected? ==> failure == Some(DeleteFailedPrefix + TemplateText(response.errorField))
    ensures response.Threw? ==> failure == Some(response.message)
  {
    match response
    case Ok(_) => None
    case Rejected(errorField) => Some(DeleteFailedPrefix + TemplateText(errorField))
    case Threw(message) => Some(message)
  }

  /** The object the caller passes to `addGame`; `addGame` writes its `platform` field. */
  class GameDraft {
    var game: NewGame

    constructor (game: NewGame)
      ensures this.game == game
    {
      this.game := game;
    }
  }

  /** `convertPlatformsArrayToString`: overwrites the draft's platform in place. */
  method ConvertPlatformsArrayToString(draft: GameDraft, platforms: seq<string>)
    modifies draft
    ensures draft.game == old(draft.game).(platform := Join(platforms))
  {
    draft.game := draft.game.(platform := Join(platforms));
  }

  /** `setDefaultValues`: converts the draft's platforms, then builds the record to send. */
  method SetDefaultValues(draft: GameDraft, platforms: seq<string>, userId: string) returns (newGame: NewGame)
    modifies draft
    ensures draft.game == old(draft.game).(platform := Join(platforms))
    ensures newGame == WithDefaults(old(draft.game), platforms, userId)
  {
    ConvertPlatformsArrayToString(draft, platforms);
    var game := draft.game;
    newGame := NewGame(game.title, game.description, PlaceholderImage, game.price, game.rating,
                       game.platform, game.genre, game.releaseDate, Some(userId));
  }

  /** The state `useGames()` returns, with the storage it reads the session from. */
  class GameClient {
    var games: seq<Game>
    var error: Option<string>
    var addError: Option<string>
    var loading: bool
    const storage: LocalStorage

    constructor (storage: LocalStorage)
      ensures this.storage == storage
      ensures games == [] && error == None && addError == None && !loading
    {
      this.storage := storage;
      games, error, addError, loading := [], None, None, false;
    }

    /** `fetchGames`: a good reply replaces the whole list; any failure keeps
        the list and records a message in `error`. */
    method FetchGames(response: Response<seq<Game>>)
      modifies this
      ensures !loading && addError == old(addError)
      ensures response.Ok? ==> games == response.body && error == old(error)
      ensures response.Rejected? ==> games == old(games) && error == Some(NoDataMessage)
      ensures response.Threw? ==> games == old(games) && error == Some(response.message)
    {
      loading := true;
      match response {
        case Ok(data) =>
          games := data;
        case Rejected(_) =>
          error := Some(NoDataMessage);
        case Threw(message) =>
          error := Some(message);
      }
      loading := false;
    }

    /** `addGame`. `created` is the reply to the POST and `relisted` the reply
        to the `fetchGames` that follows a successful POST; `sent` is the POST
        that was issued, if any. */
    method AddGame(draft: GameDraft, platforms: seq<string>, created: Response<Game>, relisted: Response<seq<Game>>)
      returns (sent: Option<Request>)
      modifies this, draft
      ensures !loading
      ensures var check := AddPrecheck(storage.items, old(draft.game), platforms);
        && (check.Failure? ==>
              sent == None && addError == Some(check.error)
              && games == old(games) && error == old(error) && draft.game == old(draft.game))
        && (check.Success? ==>
              sent == Some(CreateRequest(check.value.token, WithDefaults(old(draft.game), platforms, check.value.userId)))
              && draft.game == old(draft.game).(platform := Join(platforms)))
        && (check.Success? && created.Rejected? ==>
              addError == Some(AddFailedPrefix + TemplateText(created.errorField))
              && games == old(games) && error == old(error))
        && (check.Success? && created.Threw? ==>
              addError == Some(created.message) && games == old(games) && error == old(error))
        && (check.Success? && created.Ok? ==>
              addError == old(addError)
              && (relisted.Ok? ==> games == relisted.body && error == old(error))
              && (relisted.Rejected? ==> games == old(games) + [created.body] && error == Some(NoDataMessage))
              && (relisted.Threw? ==> games == old(games) + [created.body] && error == Some(relisted.message)))
    {
      loading := true;
      var creds := GetTokenAndUserId(storage.items);
      if creds.Failure? {
        addError := Some(creds.error);
        loading := false;
        return None;
      }
      var invalid := ValidateGame(draft.game, platforms);
      if invalid.Some? {
        addError := Some(invalid.value);
        loading := false;
        return None;
      }
      var newGame := SetDefaultValues(draft, platforms, creds.value.userId);
      sent := Some(CreateRequest(creds.value.token, newGame));
      match created {
        case Ok(game) =>
          games := games + [game];
          FetchGames(relisted);
        case Rejected(errorField) =>
          addError := Some(AddFailedPrefix + TemplateText(errorField));
        case Threw(message) =>
          addError := Some(message);
      }
      loading := false;
    }

    /** `removeGameFromState`. */
    method RemoveGameFromState(id: string)
      modifies this
      ensures games == WithoutId(old(games), id)
      ensures error == old(error) && addError == old(addError) && loading == old(loading)
    {
      games := WithoutId(games, id);
    }

    /** `deleteGame`. Both stored values are required, though only the token is sent. */
    method DeleteGame(id: string, deleted: Response<()>) returns (sent: Option<Request>)
      modifies this
      ensures !loading && addError == old(addError)
      ensures var creds := GetTokenAndUserId(storage.items);
        && (creds.Failure? ==> sent == None && error == Some(creds.error) && games == old(games))
        && (creds.Success? ==> sent == Some(DeleteRequest(id, creds.value.token)))
        && (creds.Success? && deleted.Ok? ==> games == WithoutId(old(games), id) && error == old(error))
        && (creds.Success? && deleted.Rejected? ==>
              games == old(games) && error == Some(DeleteFailedPrefix + TemplateText(deleted.errorField)))
        && (creds.Success? && deleted.Threw? ==> games == old(games) && error == Some(deleted.message))
    {
      loading := true;
      var creds := GetTokenAndUserId(storage.items);
      if creds.Failure? {
        error := Some(creds.error);
        loading := false;
        return None;
      }
      sent := Some(DeleteRequest(id, creds.value.token));
      var failure := DeleteGameFromServer(deleted);
      if failure.Some? {
        error := Some(failure.value);
      } else {
        RemoveGameFromState(id);
      }
      loading := false;
    }
  }

  /** After the session keys are removed, every operation that needs them
      fails with the unauthenticated message. */
  lemma ClearedSessionIsUnauthenticated(items: map<string, string>)
    ensures GetTokenAndUserId(WithoutSession(items)) == Failure(NotAuthenticatedMessage)
  {
  }
}
