/**
  serde's SCREAMING_SNAKE_CASE rename rule, as the error codes' wire names
  use it, and the check that each code's wire name follows it.
*/
module SnakeCase {
  predicate IsUpper(c: char) { 'A' <= c <= 'Z' }

  /** ASCII upper-casing (`char::to_ascii_uppercase`). */
  function ToUpper(c: char): char {
    if 'a' <= c <= 'z' then (c as int - 32) as char else c
  }

  /**
    The rename rule from index `i` on: an underscore goes before every
    upper-case letter other than the first character, and every letter is
    upper-cased.
  */
  function SnakeFrom(s: string, i: nat): (r: string)
    requires i <= |s|
    decreases |s| - i
  {
    if i == |s| then []
    else (if i > 0 && IsUpper(s[i]) then ['_', s[i]] else [ToUpper(s[i])]) + SnakeFrom(s, i + 1)
  }

  /** serde's SCREAMING_SNAKE_CASE of a Rust variant name. */
  function ScreamingSnake(s: string): string {
    SnakeFrom(s, 0)
  }

  /**
    Checks character by character that `n[j..]` is what the rename rule
    makes of `v[i..]`, without building the renamed string.
  */
  predicate SnakeMatches(v: string, n: string, i: nat, j: nat)
    requires i <= |v| && j <= |n|
    decreases |v| - i
  {
    if i == |v| then j == |n|
    else if i > 0 && IsUpper(v[i]) then
      j + 2 <= |n| && n[j] == '_' && n[j + 1] == v[i] && SnakeMatches(v, n, i + 1, j + 2)
    else
      j < |n| && n[j] == ToUpper(v[i]) && SnakeMatches(v, n, i + 1, j + 1)
  }

  /** A successful check means the renamed string is exactly `n[j..]`. */
  lemma {:induction false} SnakeMatchesSound(v: string, n: string, i: nat, j: nat)
    requires i <= |v| && j <= |n|
    requires SnakeMatches(v, n, i, j)
    ensures n[j..] == SnakeFrom(v, i)
    decreases |v| - i
  {
    if i < |v| {
      if i > 0 && IsUpper(v[i]) {
        SnakeMatchesSound(v, n, i + 1, j + 2);
        assert n[j..] == ['_', v[i]] + n[j + 2..];
      } else {
        SnakeMatchesSound(v, n, i + 1, j + 1);
        assert n[j..] == [ToUpper(v[i])] + n[j + 1..];
      }
    }
  }

  // ── Each code's wire name follows the rule ─────────────────────────
  // The lemmas below are the per-code instances that
  // `ErrorCodes.NameFollowsRenameRule` gathers, one fixed name each, so
  // that no proof unfolds all forty names at once. The checks run from the
  // last character back to the first.

  lemma RenamesUnauthorized()
    ensures ScreamingSnake("Unauthorized") == "UNAUTHORIZED"
  {
    var v, n := "Unauthorized", "UNAUTHORIZED";
    assert SnakeMatches(v, n, 11, 11);
    assert SnakeMatches(v, n, 10, 10);
    assert SnakeMatches(v, n, 9, 9);
    assert SnakeMatches(v, n, 8, 8);
    assert SnakeMatches(v, n, 7, 7);
    assert SnakeMatches(v, n, 6, 6);
    assert SnakeMatches(v, n, 5, 5);
    assert SnakeMatches(v, n, 4, 4);
    assert SnakeMatches(v, n, 3, 3);
    assert SnakeMatches(v, n, 2, 2);
    assert SnakeMatches(v, n, 1, 1);
    assert SnakeMatches(v, n, 0, 0);
    SnakeMatchesSound(v, n, 0, 0);
  }

  lemma RenamesInvalidToken()
    ensures ScreamingSnake("InvalidToken") == "INVALID_TOKEN"
  {
    var v, n := "InvalidToken", "INVALID_TOKEN";
    assert SnakeMatches(v, n, 11, 12);
    assert SnakeMatches(v, n, 10, 11);
    assert SnakeMatches(v, n, 9, 10);
    assert SnakeMatches(v, n, 8, 9);
    assert SnakeMatches(v, n, 7, 7);
    assert SnakeMatches(v, n, 6, 6);
    assert SnakeMatches(v, n, 5, 5);
    assert SnakeMatches(v, n, 4, 4);
    assert SnakeMatches(v, n, 3, 3);
    assert SnakeMatches(v, n, 2, 2);
    assert SnakeMatches(v, n, 1, 1);
    assert SnakeMatches(v, n, 0, 0);
    SnakeMatchesSound(v, n, 0, 0);
  }

  lemma RenamesAuthenticationRequired()
    ensures ScreamingSnake("AuthenticationRequired") == "AUTHENTICATION_REQUIRED"
  {
    var v, n := "AuthenticationRequired", "AUTHENTICATION_REQUIRED";
    assert SnakeMatches(v, n, 21, 22);
    assert SnakeMatches(v, n, 20, 21);
    assert SnakeMatches(v, n, 19, 20);
    assert SnakeMatches(v, n, 18, 19);
    assert SnakeMatches(v, n, 17, 18);
    assert SnakeMatches(v, n, 16, 17);
    assert SnakeMatches(v, n, 15, 16);
    assert SnakeMatches(v, n, 14, 14);
    assert SnakeMatches(v, n, 13, 13);
    assert SnakeMatches(v, n, 12, 12);
    assert SnakeMatches(v, n, 11, 11);
    assert SnakeMatches(v, n, 10, 10);
    assert SnakeMatches(v, n, 9, 9);
    assert SnakeMatches(v, n, 8, 8);
    assert SnakeMatches(v, n, 7, 7);
    assert SnakeMatches(v, n, 6, 6);
    assert SnakeMatches(v, n, 5, 5);
    assert SnakeMatches(v, n, 4, 4);
    assert SnakeMatches(v, n, 3, 3);
    assert SnakeMatches(v, n, 2, 2);
    assert SnakeMatches(v, n, 1, 1);
    assert SnakeMatches(v, n, 0, 0);
    SnakeMatchesSound(v, n, 0, 0);
  }

  lemma RenamesInvalidAppId()
    ensures ScreamingSnake("InvalidAppId") == "INVALID_APP_ID"
  {
    var v, n := "InvalidAppId", "INVALID_APP_ID";
    assert SnakeMatches(v, n, 11, 13);
    assert SnakeMatches(v, n, 10, 11);
    assert SnakeMatches(v, n, 9, 10);
    assert SnakeMatches(v, n, 8, 9);
    assert SnakeMatches(v, n, 7, 7);
    assert SnakeMatches(v, n, 6, 6);
    assert SnakeMatches(v, n, 5, 5);
    assert SnakeMatches(v, n, 4, 4);
    assert SnakeMatches(v, n, 3, 3);
    assert SnakeMatches(v, n, 2, 2);
    assert SnakeMatches(v, n, 1, 1);
    assert SnakeMatches(v, n, 0, 0);
    SnakeMatchesSound(v, n, 0, 0);
  }

  lemma RenamesAppIdExpired()
    ensures ScreamingSnake("AppIdExpired") == "APP_ID_EXPIRED"
  {
    var v, n := "AppIdExpired", "APP_ID_EXPIRED";
    assert SnakeMatches(v, n, 11, 13);
    assert SnakeMatches(v, n, 10, 12);
    assert SnakeMatches(v, n, 9, 11);
    assert SnakeMatches(v, n, 8, 10);
    assert SnakeMatches(v, n, 7, 9);
    assert SnakeMatches(v, n, 6, 8);
    assert SnakeMatches(v, n, 5, 6);
    assert SnakeMatches(v, n, 4, 5);
    assert SnakeMatches(v, n, 3, 3);
    assert SnakeMatches(v, n, 2, 2);
    assert SnakeMatches(v, n, 1, 1);
    assert SnakeMatches(v, n, 0, 0);
    SnakeMatchesSound(v, n, 0, 0);
  }

  lemma RenamesAppIdRevoked()
    ensures ScreamingSnake("AppIdRevoked") == "APP_ID_REVOKED"
  {
    var v, n := "AppIdRevoked", "APP_ID_REVOKED";
    assert SnakeMatches(v, n, 11, 13);
    assert SnakeMatches(v, n, 10, 12);
    assert SnakeMatches(v, n, 9, 11);
    assert SnakeMatches(v, n, 8, 10);
    assert SnakeMatches(v, n, 7, 9);
    assert SnakeMatches(v, n, 6, 8);
    assert SnakeMatches(v, n, 5, 6);
    assert SnakeMatches(v, n, 4, 5);
    assert SnakeMatches(v, n, 3, 3);
    assert SnakeMatches(v, n, 2, 2);
    assert SnakeMatches(v, n, 1, 1);
    assert SnakeMatches(v, n, 0, 0);
    SnakeMatchesSound(v, n, 0, 0);
  }

  lemma RenamesAppIdSuspended()
    ensures ScreamingSnake("AppIdSuspended") == "APP_ID_SUSPENDED"
  {
    var v, n := "AppIdSuspended", "APP_ID_SUSPENDED";
    assert SnakeMatches(v, n, 13, 15);
    assert SnakeMatches(v, n, 12, 14);
    assert SnakeMatches(v, n, 11, 13);
    assert SnakeMatches(v, n, 10, 12);
    assert SnakeMatches(v, n, 9, 11);
    assert SnakeMatches(v, n, 8, 10);
    assert SnakeMatches(v, n, 7, 9);
    assert SnakeMatches(v, n, 6, 8);
    assert SnakeMatches(v, n, 5, 6);
    assert SnakeMatches(v, n, 4, 5);
    assert SnakeMatches(v, n, 3, 3);
    assert SnakeMatches(v, n, 2, 2);
    assert SnakeMatches(v, n, 1, 1);
    assert SnakeMatches(v, n, 0, 0);
    SnakeMatchesSound(v, n, 0, 0);
  }

  lemma RenamesMissingAppId()
    ensures ScreamingSnake("MissingAppId") == "MISSING_APP_ID"
  {
    var v, n := "MissingAppId", "MISSING_APP_ID";
    assert SnakeMatches(v, n, 11, 13);
    assert SnakeMatches(v, n, 10, 11);
    assert SnakeMatches(v, n, 9, 10);
    assert SnakeMatches(v, n, 8, 9);
    assert SnakeMatches(v, n, 7, 7);
    assert SnakeMatches(v, n, 6, 6);
    assert SnakeMatches(v, n, 5, 5);
    assert SnakeMatches(v, n, 4, 4);
    assert SnakeMatches(v, n, 3, 3);
    assert SnakeMatches(v, n, 2, 2);
    assert SnakeMatches(v, n, 1, 1);
    assert SnakeMatches(v, n, 0, 0);
    SnakeMatchesSound(v, n, 0, 0);
  }

  lemma RenamesAuthenticationTimeout()
    ensures ScreamingSnake("AuthenticationTimeout") == "AUTHENTICATION_TIMEOUT"
  {
    var v, n := "AuthenticationTimeout", "AUTHENTICATION_TIMEOUT";
    assert SnakeMatches(v, n, 20, 21);
    assert SnakeMatches(v, n, 19, 20);
    assert SnakeMatches(v, n, 18, 19);
    assert SnakeMatches(v, n, 17, 18);
    assert SnakeMatches(v, n, 16, 17);
    assert SnakeMatches(v, n, 15, 16);
    assert SnakeMatches(v, n, 14, 14);
    assert SnakeMatches(v, n, 13, 13);
    assert SnakeMatches(v, n, 12, 12);
    assert SnakeMatches(v, n, 11, 11);
    assert SnakeMatches(v, n, 10, 10);
    assert SnakeMatches(v, n, 9, 9);
    assert SnakeMatches(v, n, 8, 8);
    assert SnakeMatches(v, n, 7, 7);
    assert SnakeMatches(v, n, 6, 6);
    assert SnakeMatches(v, n, 5, 5);
    assert SnakeMatches(v, n, 4, 4);
    assert SnakeMatches(v, n, 3, 3);
    assert SnakeMatches(v, n, 2, 2);
    assert SnakeMatches(v, n, 1, 1);
    assert SnakeMatches(v, n, 0, 0);
    SnakeMatchesSound(v, n, 0, 0);
  }

  lemma RenamesSdkVersionUnsupported()
    ensures ScreamingSnake("SdkVersionUnsupported") == "SDK_VERSION_UNSUPPORTED"
  {
    var v, n := "SdkVersionUnsupported", "SDK_VERSION_UNSUPPORTED";
    assert SnakeMatches(v, n, 20, 22);
    assert SnakeMatches(v, n, 19, 21);
    assert SnakeMatches(v, n, 18, 20);
    assert SnakeMatches(v, n, 17, 19);
    assert SnakeMatches(v, n, 16, 18);
    assert SnakeMatches(v, n, 15, 17);
    assert SnakeMatches(v, n, 14, 16);
    assert SnakeMatches(v, n, 13, 15);
    assert SnakeMatches(v, n, 12, 14);
    assert SnakeMatches(v, n, 11, 13);
    assert SnakeMatches(v, n, 10, 11);
    assert SnakeMatches(v, n, 9, 10);
    assert SnakeMatches(v, n, 8, 9);
    assert SnakeMatches(v, n, 7, 8);
    assert SnakeMatches(v, n, 6, 7);
    assert SnakeMatches(v, n, 5, 6);
    assert SnakeMatches(v, n, 4, 5);
    assert SnakeMatches(v, n, 3, 3);
    assert SnakeMatches(v, n, 2, 2);
    assert SnakeMatches(v, n, 1, 1);
    assert SnakeMatches(v, n, 0, 0);
    SnakeMatchesSound(v, n, 0, 0);
  }

  lemma RenamesUnsupportedGameDataFormat()
    ensures ScreamingSnake("UnsupportedGameDataFormat") == "UNSUPPORTED_GAME_DATA_FORMAT"
  {
    var v, n := "UnsupportedGameDataFormat", "UNSUPPORTED_GAME_DATA_FORMAT";
    assert SnakeMatches(v, n, 24, 27);
    assert SnakeMatches(v, n, 23, 26);
    assert SnakeMatches(v, n, 22, 25);
    assert SnakeMatches(v, n, 21, 24);
    assert SnakeMatches(v, n, 20, 23);
    assert SnakeMatches(v, n, 19, 21);
    assert SnakeMatches(v, n, 18, 20);
    assert SnakeMatches(v, n, 17, 19);
    assert SnakeMatches(v, n, 16, 18);
    assert SnakeMatches(v, n, 15, 16);
    assert SnakeMatches(v, n, 14, 15);
    assert SnakeMatches(v, n, 13, 14);
    assert SnakeMatches(v, n, 12, 13);
    assert SnakeMatches(v, n, 11, 11);
    assert SnakeMatches(v, n, 10, 10);
    assert SnakeMatches(v, n, 9, 9);
    assert SnakeMatches(v, n, 8, 8);
    assert SnakeMatches(v, n, 7, 7);
    assert SnakeMatches(v, n, 6, 6);
    assert SnakeMatches(v, n, 5, 5);
    assert SnakeMatches(v, n, 4, 4);
    assert SnakeMatches(v, n, 3, 3);
    assert SnakeMatches(v, n, 2, 2);
    assert SnakeMatches(v, n, 1, 1);
    assert SnakeMatches(v, n, 0, 0);
    SnakeMatchesSound(v, n, 0, 0);
  }

  lemma RenamesInvalidInput()
    ensures ScreamingSnake("InvalidInput") == "INVALID_INPUT"
  {
    var v, n := "InvalidInput", "INVALID_INPUT";
    assert SnakeMatches(v, n, 11, 12);
    assert SnakeMatches(v, n, 10, 11);
    assert SnakeMatches(v, n, 9, 10);
    assert SnakeMatches(v, n, 8, 9);
    assert SnakeMatches(v, n, 7, 7);
    assert SnakeMatches(v, n, 6, 6);
    assert SnakeMatches(v, n, 5, 5);
    assert SnakeMatches(v, n, 4, 4);
    assert SnakeMatches(v, n, 3, 3);
    assert SnakeMatches(v, n, 2, 2);
    assert SnakeMatches(v, n, 1, 1);
    assert SnakeMatches(v, n, 0, 0);
    SnakeMatchesSound(v, n, 0, 0);
  }

  lemma RenamesInvalidGameName()
    ensures ScreamingSnake("InvalidGameName") == "INVALID_GAME_NAME"
  {
    var v, n := "InvalidGameName", "INVALID_GAME_NAME";
    assert SnakeMatches(v, n, 14, 16);
    assert SnakeMatches(v, n, 13, 15);
    assert SnakeMatches(v, n, 12, 14);
    assert SnakeMatches(v, n, 11, 12);
    assert SnakeMatches(v, n, 10, 11);
    assert SnakeMatches(v, n, 9, 10);
    assert SnakeMatches(v, n, 8, 9);
    assert SnakeMatches(v, n, 7, 7);
    assert SnakeMatches(v, n, 6, 6);
    assert SnakeMatches(v, n, 5, 5);
    assert SnakeMatches(v, n, 4, 4);
    assert SnakeMatches(v, n, 3, 3);
    assert SnakeMatches(v, n, 2, 2);
    assert SnakeMatches(v, n, 1, 1);
    assert SnakeMatches(v, n, 0, 0);
    SnakeMatchesSound(v, n, 0, 0);
  }

  lemma RenamesInvalidRoomCode()
    ensures ScreamingSnake("InvalidRoomCode") == "INVALID_ROOM_CODE"
  {
    var v, n := "InvalidRoomCode", "INVALID_ROOM_CODE";
    assert SnakeMatches(v, n, 14, 16);
    assert SnakeMatches(v, n, 13, 15);
    assert SnakeMatches(v, n, 12, 14);
    assert SnakeMatches(v, n, 11, 12);
    assert SnakeMatches(v, n, 10, 11);
    assert SnakeMatches(v, n, 9, 10);
    assert SnakeMatches(v, n, 8, 9);
    assert SnakeMatches(v, n, 7, 7);
    assert SnakeMatches(v, n, 6, 6);
    assert SnakeMatches(v, n, 5, 5);
    assert SnakeMatches(v, n, 4, 4);
    assert SnakeMatches(v, n, 3, 3);
    assert SnakeMatches(v, n, 2, 2);
    assert SnakeMatches(v, n, 1, 1);
    assert SnakeMatches(v, n, 0, 0);
    SnakeMatchesSound(v, n, 0, 0);
  }

  lemma RenamesInvalidPlayerName()
    ensures ScreamingSnake("InvalidPlayerName") == "INVALID_PLAYER_NAME"
  {
    var v, n := "InvalidPlayerName", "INVALID_PLAYER_NAME";
    assert SnakeMatches(v, n, 16, 18);
    assert SnakeMatches(v, n, 15, 17);
    assert SnakeMatches(v, n, 14, 16);
    assert SnakeMatches(v, n, 13, 14);
    assert SnakeMatches(v, n, 12, 13);
    assert SnakeMatches(v, n, 11, 12);
    assert SnakeMatches(v, n, 10, 11);
    assert SnakeMatches(v, n, 9, 10);
    assert SnakeMatches(v, n, 8, 9);
    assert SnakeMatches(v, n, 7, 7);
    assert SnakeMatches(v, n, 6, 6);
    assert SnakeMatches(v, n, 5, 5);
    assert SnakeMatches(v, n, 4, 4);
    assert SnakeMatches(v, n, 3, 3);
    assert SnakeMatches(v, n, 2, 2);
    assert SnakeMatches(v, n, 1, 1);
    assert SnakeMatches(v, n, 0, 0);
    SnakeMatchesSound(v, n, 0, 0);
  }

  lemma RenamesInvalidMaxPlayers()
    ensures ScreamingSnake("InvalidMaxPlayers") == "INVALID_MAX_PLAYERS"
  {
    var v, n := "InvalidMaxPlayers", "INVALID_MAX_PLAYERS";
    assert SnakeMatches(v, n, 16, 18);
    assert SnakeMatches(v, n, 15, 17);
    assert SnakeMatches(v, n, 14, 16);
    assert SnakeMatches(v, n, 13, 15);
    assert SnakeMatches(v, n, 12, 14);
    assert SnakeMatches(v, n, 11, 13);
    assert SnakeMatches(v, n, 10, 11);
    assert SnakeMatches(v, n, 9, 10);
    assert SnakeMatches(v, n, 8, 9);
    assert SnakeMatches(v, n, 7, 7);
    assert SnakeMatches(v, n, 6, 6);
    assert SnakeMatches(v, n, 5, 5);
    assert SnakeMatches(v, n, 4, 4);
    assert SnakeMatches(v, n, 3, 3);
    assert SnakeMatches(v, n, 2, 2);
    assert SnakeMatches(v, n, 1, 1);
    assert SnakeMatches(v, n, 0, 0);
    SnakeMatchesSound(v, n, 0, 0);
  }

  lemma RenamesMessageTooLarge()
    ensures ScreamingSnake("MessageTooLarge") == "MESSAGE_TOO_LARGE"
  {
    var v, n := "MessageTooLarge", "MESSAGE_TOO_LARGE";
    assert SnakeMatches(v, n, 14, 16);
    assert SnakeMatches(v, n, 13, 15);
    assert SnakeMatches(v, n, 12, 14);
    assert SnakeMatches(v, n, 11, 13);
    assert SnakeMatches(v, n, 10, 11);
    assert SnakeMatches(v, n, 9, 10);
    assert SnakeMatches(v, n, 8, 9);
    assert SnakeMatches(v, n, 7, 7);
    assert SnakeMatches(v, n, 6, 6);
    assert SnakeMatches(v, n, 5, 5);
    assert SnakeMatches(v, n, 4, 4);
    assert SnakeMatches(v, n, 3, 3);
    assert SnakeMatches(v, n, 2, 2);
    assert SnakeMatches(v, n, 1, 1);
    assert SnakeMatches(v, n, 0, 0);
    SnakeMatchesSound(v, n, 0, 0);
  }

  lemma RenamesRoomNotFound()
    ensures ScreamingSnake("RoomNotFound") == "ROOM_NOT_FOUND"
  {
    var v, n := "RoomNotFound", "ROOM_NOT_FOUND";
    assert SnakeMatches(v, n, 11, 13);
    assert SnakeMatches(v, n, 10, 12);
    assert SnakeMatches(v, n, 9, 11);
    assert SnakeMatches(v, n, 8, 10);
    assert SnakeMatches(v, n, 7, 8);
    assert SnakeMatches(v, n, 6, 7);
    assert SnakeMatches(v, n, 5, 6);
    assert SnakeMatches(v, n, 4, 4);
    assert SnakeMatches(v, n, 3, 3);
    assert SnakeMatches(v, n, 2, 2);
    assert SnakeMatches(v, n, 1, 1);
    assert SnakeMatches(v, n, 0, 0);
    SnakeMatchesSound(v, n, 0, 0);
  }

  lemma RenamesRoomFull()
    ensures ScreamingSnake("RoomFull") == "ROOM_FULL"
  {
    var v, n := "RoomFull", "ROOM_FULL";
    assert SnakeMatches(v, n, 7, 8);
    assert SnakeMatches(v, n, 6, 7);
    assert SnakeMatches(v, n, 5, 6);
    assert SnakeMatches(v, n, 4, 4);
    assert SnakeMatches(v, n, 3, 3);
    assert SnakeMatches(v, n, 2, 2);
    assert SnakeMatches(v, n, 1, 1);
    assert SnakeMatches(v, n, 0, 0);
    SnakeMatchesSound(v, n, 0, 0);
  }

  lemma RenamesAlreadyInRoom()
    ensures ScreamingSnake("AlreadyInRoom") == "ALREADY_IN_ROOM"
  {
    var v, n := "AlreadyInRoom", "ALREADY_IN_ROOM";
    assert SnakeMatches(v, n, 12, 14);
    assert SnakeMatches(v, n, 11, 13);
    assert SnakeMatches(v, n, 10, 12);
    assert SnakeMatches(v, n, 9, 10);
    assert SnakeMatches(v, n, 8, 9);
    assert SnakeMatches(v, n, 7, 7);
    assert SnakeMatches(v, n, 6, 6);
    assert SnakeMatches(v, n, 5, 5);
    assert SnakeMatches(v, n, 4, 4);
    assert SnakeMatches(v, n, 3, 3);
    assert SnakeMatches(v, n, 2, 2);
    assert SnakeMatches(v, n, 1, 1);
    assert SnakeMatches(v, n, 0, 0);
    SnakeMatchesSound(v, n, 0, 0);
  }

  lemma RenamesNotInRoom()
    ensures ScreamingSnake("NotInRoom") == "NOT_IN_ROOM"
  {
    var v, n := "NotInRoom", "NOT_IN_ROOM";
    assert SnakeMatches(v, n, 8, 10);
    assert SnakeMatches(v, n, 7, 9);
    assert SnakeMatches(v, n, 6, 8);
    assert SnakeMatches(v, n, 5, 6);
    assert SnakeMatches(v, n, 4, 5);
    assert SnakeMatches(v, n, 3, 3);
    assert SnakeMatches(v, n, 2, 2);
    assert SnakeMatches(v, n, 1, 1);
    assert SnakeMatches(v, n, 0, 0);
    SnakeMatchesSound(v, n, 0, 0);
  }

  lemma RenamesRoomCreationFailed()
    ensures ScreamingSnake("RoomCreationFailed") == "ROOM_CREATION_FAILED"
  {
    var v, n := "RoomCreationFailed", "ROOM_CREATION_FAILED";
    assert SnakeMatches(v, n, 17, 19);
    assert SnakeMatches(v, n, 16, 18);
    assert SnakeMatches(v, n, 15, 17);
    assert SnakeMatches(v, n, 14, 16);
    assert SnakeMatches(v, n, 13, 15);
    assert SnakeMatches(v, n, 12, 13);
    assert SnakeMatches(v, n, 11, 12);
    assert SnakeMatches(v, n, 10, 11);
    assert SnakeMatches(v, n, 9, 10);
    assert SnakeMatches(v, n, 8, 9);
    assert SnakeMatches(v, n, 7, 8);
    assert SnakeMatches(v, n, 6, 7);
    assert SnakeMatches(v, n, 5, 6);
    assert SnakeMatches(v, n, 4, 4);
    assert SnakeMatches(v, n, 3, 3);
    assert SnakeMatches(v, n, 2, 2);
    assert SnakeMatches(v, n, 1, 1);
    assert SnakeMatches(v, n, 0, 0);
    SnakeMatchesSound(v, n, 0, 0);
  }

  lemma RenamesMaxRoomsPerGameExceeded()
    ensures ScreamingSnake("MaxRoomsPerGameExceeded") == "MAX_ROOMS_PER_GAME_EXCEEDED"
  {
    var v, n := "MaxRoomsPerGameExceeded", "MAX_ROOMS_PER_GAME_EXCEEDED";
    assert SnakeMatches(v, n, 22, 26);
    assert SnakeMatches(v, n, 21, 25);
    assert SnakeMatches(v, n, 20, 24);
    assert SnakeMatches(v, n, 19, 23);
    assert SnakeMatches(v, n, 18, 22);
    assert SnakeMatches(v, n, 17, 21);
    assert SnakeMatches(v, n, 16, 20);
    assert SnakeMatches(v, n, 15, 18);
    assert SnakeMatches(v, n, 14, 17);
    assert SnakeMatches(v, n, 13, 16);
    assert SnakeMatches(v, n, 12, 15);
    assert SnakeMatches(v, n, 11, 13);
    assert SnakeMatches(v, n, 10, 12);
    assert SnakeMatches(v, n, 9, 11);
    assert SnakeMatches(v, n, 8, 9);
    assert SnakeMatches(v, n, 7, 8);
    assert SnakeMatches(v, n, 6, 7);
    assert SnakeMatches(v, n, 5, 6);
    assert SnakeMatches(v, n, 4, 5);
    assert SnakeMatches(v, n, 3, 3);
    assert SnakeMatches(v, n, 2, 2);
    assert SnakeMatches(v, n, 1, 1);
    assert SnakeMatches(v, n, 0, 0);
    SnakeMatchesSound(v, n, 0, 0);
  }

  lemma RenamesInvalidRoomState()
    ensures ScreamingSnake("InvalidRoomState") == "INVALID_ROOM_STATE"
  {
    var v, n := "InvalidRoomState", "INVALID_ROOM_STATE";
    assert SnakeMatches(v, n, 15, 17);
    assert SnakeMatches(v, n, 14, 16);
    assert SnakeMatches(v, n, 13, 15);
    assert SnakeMatches(v, n, 12, 14);
    assert SnakeMatches(v, n, 11, 12);
    assert SnakeMatches(v, n, 10, 11);
    assert SnakeMatches(v, n, 9, 10);
    assert SnakeMatches(v, n, 8, 9);
    assert SnakeMatches(v, n, 7, 7);
    assert SnakeMatches(v, n, 6, 6);
    assert SnakeMatches(v, n, 5, 5);
    assert SnakeMatches(v, n, 4, 4);
    assert SnakeMatches(v, n, 3, 3);
    assert SnakeMatches(v, n, 2, 2);
    assert SnakeMatches(v, n, 1, 1);
    assert SnakeMatches(v, n, 0, 0);
    SnakeMatchesSound(v, n, 0, 0);
  }

  lemma RenamesAuthorityNotSupported()
    ensures ScreamingSnake("AuthorityNotSupported") == "AUTHORITY_NOT_SUPPORTED"
  {
    var v, n := "AuthorityNotSupported", "AUTHORITY_NOT_SUPPORTED";
    assert SnakeMatches(v, n, 20, 22);
    assert SnakeMatches(v, n, 19, 21);
    assert SnakeMatches(v, n, 18, 20);
    assert SnakeMatches(v, n, 17, 19);
    assert SnakeMatches(v, n, 16, 18);
    assert SnakeMatches(v, n, 15, 17);
    assert SnakeMatches(v, n, 14, 16);
    assert SnakeMatches(v, n, 13, 15);
    assert SnakeMatches(v, n, 12, 13);
    assert SnakeMatches(v, n, 11, 12);
    assert SnakeMatches(v, n, 10, 11);
    assert SnakeMatches(v, n, 9, 9);
    assert SnakeMatches(v, n, 8, 8);
    assert SnakeMatches(v, n, 7, 7);
    assert SnakeMatches(v, n, 6, 6);
    assert SnakeMatches(v, n, 5, 5);
    assert SnakeMatches(v, n, 4, 4);
    assert SnakeMatches(v, n, 3, 3);
    assert SnakeMatches(v, n, 2, 2);
    assert SnakeMatches(v, n, 1, 1);
    assert SnakeMatches(v, n, 0, 0);
    SnakeMatchesSound(v, n, 0, 0);
  }

  lemma RenamesAuthorityConflict()
    ensures ScreamingSnake("AuthorityConflict") == "AUTHORITY_CONFLICT"
  {
    var v, n := "AuthorityConflict", "AUTHORITY_CONFLICT";
    assert SnakeMatches(v, n, 16, 17);
    assert SnakeMatches(v, n, 15, 16);
    assert SnakeMatches(v, n, 14, 15);
    assert SnakeMatches(v, n, 13, 14);
    assert SnakeMatches(v, n, 12, 13);
    assert SnakeMatches(v, n, 11, 12);
    assert SnakeMatches(v, n, 10, 11);
    assert SnakeMatches(v, n, 9, 9);
    assert SnakeMatches(v, n, 8, 8);
    assert SnakeMatches(v, n, 7, 7);
    assert SnakeMatches(v, n, 6, 6);
    assert SnakeMatches(v, n, 5, 5);
    assert SnakeMatches(v, n, 4, 4);
    assert SnakeMatches(v, n, 3, 3);
    assert SnakeMatches(v, n, 2, 2);
    assert SnakeMatches(v, n, 1, 1);
    assert SnakeMatches(v, n, 0, 0);
    SnakeMatchesSound(v, n, 0, 0);
  }

  lemma RenamesAuthorityDenied()
    ensures ScreamingSnake("AuthorityDenied") == "AUTHORITY_DENIED"
  {
    var v, n := "AuthorityDenied", "AUTHORITY_DENIED";
    assert SnakeMatches(v, n, 14, 15);
    assert SnakeMatches(v, n, 13, 14);
    assert SnakeMatches(v, n, 12, 13);
    assert SnakeMatches(v, n, 11, 12);
    assert SnakeMatches(v, n, 10, 11);
    assert SnakeMatches(v, n, 9, 9);
    assert SnakeMatches(v, n, 8, 8);
    assert SnakeMatches(v, n, 7, 7);
    assert SnakeMatches(v, n, 6, 6);
    assert SnakeMatches(v, n, 5, 5);
    assert SnakeMatches(v, n, 4, 4);
    assert SnakeMatches(v, n, 3, 3);
    assert SnakeMatches(v, n, 2, 2);
    assert SnakeMatches(v, n, 1, 1);
    assert SnakeMatches(v, n, 0, 0);
    SnakeMatchesSound(v, n, 0, 0);
  }

  lemma RenamesRateLimitExceeded()
    ensures ScreamingSnake("RateLimitExceeded") == "RATE_LIMIT_EXCEEDED"
  {
    var v, n := "RateLimitExceeded", "RATE_LIMIT_EXCEEDED";
    assert SnakeMatches(v, n, 16, 18);
    assert SnakeMatches(v, n, 15, 17);
    assert SnakeMatches(v, n, 14, 16);
    assert SnakeMatches(v, n, 13, 15);
    assert SnakeMatches(v, n, 12, 14);
    assert SnakeMatches(v, n, 11, 13);
    assert SnakeMatches(v, n, 10, 12);
    assert SnakeMatches(v, n, 9, 10);
    assert SnakeMatches(v, n, 8, 9);
    assert SnakeMatches(v, n, 7, 8);
    assert SnakeMatches(v, n, 6, 7);
    assert SnakeMatches(v, n, 5, 6);
    assert SnakeMatches(v, n, 4, 4);
    assert SnakeMatches(v, n, 3, 3);
    assert SnakeMatches(v, n, 2, 2);
    assert SnakeMatches(v, n, 1, 1);
    assert SnakeMatches(v, n, 0, 0);
    SnakeMatchesSound(v, n, 0, 0);
  }

  lemma RenamesTooManyConnections()
    ensures ScreamingSnake("TooManyConnections") == "TOO_MANY_CONNECTIONS"
  {
    var v, n := "TooManyConnections", "TOO_MANY_CONNECTIONS";
    assert SnakeMatches(v, n, 17, 19);
    assert SnakeMatches(v, n, 16, 18);
    assert SnakeMatches(v, n, 15, 17);
    assert SnakeMatches(v, n, 14, 16);
    assert SnakeMatches(v, n, 13, 15);
    assert SnakeMatches(v, n, 12, 14);
    assert SnakeMatches(v, n, 11, 13);
    assert SnakeMatches(v, n, 10, 12);
    assert SnakeMatches(v, n, 9, 11);
    assert SnakeMatches(v, n, 8, 10);
    assert SnakeMatches(v, n, 7, 8);
    assert SnakeMatches(v, n, 6, 7);
    assert SnakeMatches(v, n, 5, 6);
    assert SnakeMatches(v, n, 4, 5);
    assert SnakeMatches(v, n, 3, 3);
    assert SnakeMatches(v, n, 2, 2);
    assert SnakeMatches(v, n, 1, 1);
    assert SnakeMatches(v, n, 0, 0);
    SnakeMatchesSound(v, n, 0, 0);
  }

  lemma RenamesReconnectionFailed()
    ensures ScreamingSnake("ReconnectionFailed") == "RECONNECTION_FAILED"
  {
    var v, n := "ReconnectionFailed", "RECONNECTION_FAILED";
    assert SnakeMatches(v, n, 17, 18);
    assert SnakeMatches(v, n, 16, 17);
    assert SnakeMatches(v, n, 15, 16);
    assert SnakeMatches(v, n, 14, 15);
    assert SnakeMatches(v, n, 13, 14);
    assert SnakeMatches(v, n, 12, 12);
    assert SnakeMatches(v, n, 11, 11);
    assert SnakeMatches(v, n, 10, 10);
    assert SnakeMatches(v, n, 9, 9);
    assert SnakeMatches(v, n, 8, 8);
    assert SnakeMatches(v, n, 7, 7);
    assert SnakeMatches(v, n, 6, 6);
    assert SnakeMatches(v, n, 5, 5);
    assert SnakeMatches(v, n, 4, 4);
    assert SnakeMatches(v, n, 3, 3);
    assert SnakeMatches(v, n, 2, 2);
    assert SnakeMatches(v, n, 1, 1);
    assert SnakeMatches(v, n, 0, 0);
    SnakeMatchesSound(v, n, 0, 0);
  }

  lemma RenamesReconnectionTokenInvalid()
    ensures ScreamingSnake("ReconnectionTokenInvalid") == "RECONNECTION_TOKEN_INVALID"
  {
    var v, n := "ReconnectionTokenInvalid", "RECONNECTION_TOKEN_INVALID";
    assert SnakeMatches(v, n, 23, 25);
    assert SnakeMatches(v, n, 22, 24);
    assert SnakeMatches(v, n, 21, 23);
    assert SnakeMatches(v, n, 20, 22);
    assert SnakeMatches(v, n, 19, 21);
    assert SnakeMatches(v, n, 18, 20);
    assert SnakeMatches(v, n, 17, 18);
    assert SnakeMatches(v, n, 16, 17);
    assert SnakeMatches(v, n, 15, 16);
    assert SnakeMatches(v, n, 14, 15);
    assert SnakeMatches(v, n, 13, 14);
    assert SnakeMatches(v, n, 12, 12);
    assert SnakeMatches(v, n, 11, 11);
    assert SnakeMatches(v, n, 10, 10);
    assert SnakeMatches(v, n, 9, 9);
    assert SnakeMatches(v, n, 8, 8);
    assert SnakeMatches(v, n, 7, 7);
    assert SnakeMatches(v, n, 6, 6);
    assert SnakeMatches(v, n, 5, 5);
    assert SnakeMatches(v, n, 4, 4);
    assert SnakeMatches(v, n, 3, 3);
    assert SnakeMatches(v, n, 2, 2);
    assert SnakeMatches(v, n, 1, 1);
    assert SnakeMatches(v, n, 0, 0);
    SnakeMatchesSound(v, n, 0, 0);
  }

  lemma RenamesReconnectionExpired()
    ensures ScreamingSnake("ReconnectionExpired") == "RECONNECTION_EXPIRED"
  {
    var v, n := "ReconnectionExpired", "RECONNECTION_EXPIRED";
    assert SnakeMatches(v, n, 18, 19);
    assert SnakeMatches(v, n, 17, 18);
    assert SnakeMatches(v, n, 16, 17);
    assert SnakeMatches(v, n, 15, 16);
    assert SnakeMatches(v, n, 14, 15);
    assert SnakeMatches(v, n, 13, 14);
    assert SnakeMatches(v, n, 12, 12);
    assert SnakeMatches(v, n, 11, 11);
    assert SnakeMatches(v, n, 10, 10);
    assert SnakeMatches(v, n, 9, 9);
    assert SnakeMatches(v, n, 8, 8);
    assert SnakeMatches(v, n, 7, 7);
    assert SnakeMatches(v, n, 6, 6);
    assert SnakeMatches(v, n, 5, 5);
    assert SnakeMatches(v, n, 4, 4);
    assert SnakeMatches(v, n, 3, 3);
    assert SnakeMatches(v, n, 2, 2);
    assert SnakeMatches(v, n, 1, 1);
    assert SnakeMatches(v, n, 0, 0);
    SnakeMatchesSound(v, n, 0, 0);
  }

  lemma RenamesPlayerAlreadyConnected()
    ensures ScreamingSnake("PlayerAlreadyConnected") == "PLAYER_ALREADY_CONNECTED"
  {
    var v, n := "PlayerAlreadyConnected", "PLAYER_ALREADY_CONNECTED";
    assert SnakeMatches(v, n, 21, 23);
    assert SnakeMatches(v, n, 20, 22);
    assert SnakeMatches(v, n, 19, 21);
    assert SnakeMatches(v, n, 18, 20);
    assert SnakeMatches(v, n, 17, 19);
    assert SnakeMatches(v, n, 16, 18);
    assert SnakeMatches(v, n, 15, 17);
    assert SnakeMatches(v, n, 14, 16);
    assert SnakeMatches(v, n, 13, 14);
    assert SnakeMatches(v, n, 12, 13);
    assert SnakeMatches(v, n, 11, 12);
    assert SnakeMatches(v, n, 10, 11);
    assert SnakeMatches(v, n, 9, 10);
    assert SnakeMatches(v, n, 8, 9);
    assert SnakeMatches(v, n, 7, 8);
    assert SnakeMatches(v, n, 6, 6);
    assert SnakeMatches(v, n, 5, 5);
    assert SnakeMatches(v, n, 4, 4);
    assert SnakeMatches(v, n, 3, 3);
    assert SnakeMatches(v, n, 2, 2);
    assert SnakeMatches(v, n, 1, 1);
    assert SnakeMatches(v, n, 0, 0);
    SnakeMatchesSound(v, n, 0, 0);
  }

  lemma RenamesSpectatorNotAllowed()
    ensures ScreamingSnake("SpectatorNotAllowed") == "SPECTATOR_NOT_ALLOWED"
  {
    var v, n := "SpectatorNotAllowed", "SPECTATOR_NOT_ALLOWED";
    assert SnakeMatches(v, n, 18, 20);
    assert SnakeMatches(v, n, 17, 19);
    assert SnakeMatches(v, n, 16, 18);
    assert SnakeMatches(v, n, 15, 17);
    assert SnakeMatches(v, n, 14, 16);
    assert SnakeMatches(v, n, 13, 15);
    assert SnakeMatches(v, n, 12, 13);
    assert SnakeMatches(v, n, 11, 12);
    assert SnakeMatches(v, n, 10, 11);
    assert SnakeMatches(v, n, 9, 9);
    assert SnakeMatches(v, n, 8, 8);
    assert SnakeMatches(v, n, 7, 7);
    assert SnakeMatches(v, n, 6, 6);
    assert SnakeMatches(v, n, 5, 5);
    assert SnakeMatches(v, n, 4, 4);
    assert SnakeMatches(v, n, 3, 3);
    assert SnakeMatches(v, n, 2, 2);
    assert SnakeMatches(v, n, 1, 1);
    assert SnakeMatches(v, n, 0, 0);
    SnakeMatchesSound(v, n, 0, 0);
  }

  lemma RenamesTooManySpectators()
    ensures ScreamingSnake("TooManySpectators") == "TOO_MANY_SPECTATORS"
  {
    var v, n := "TooManySpectators", "TOO_MANY_SPECTATORS";
    assert SnakeMatches(v, n, 16, 18);
    assert SnakeMatches(v, n, 15, 17);
    assert SnakeMatches(v, n, 14, 16);
    assert SnakeMatches(v, n, 13, 15);
    assert SnakeMatches(v, n, 12, 14);
    assert SnakeMatches(v, n, 11, 13);
    assert SnakeMatches(v, n, 10, 12);
    assert SnakeMatches(v, n, 9, 11);
    assert SnakeMatches(v, n, 8, 10);
    assert SnakeMatches(v, n, 7, 8);
    assert SnakeMatches(v, n, 6, 7);
    assert SnakeMatches(v, n, 5, 6);
    assert SnakeMatches(v, n, 4, 5);
    assert SnakeMatches(v, n, 3, 3);
    assert SnakeMatches(v, n, 2, 2);
    assert SnakeMatches(v, n, 1, 1);
    assert SnakeMatches(v, n, 0, 0);
    SnakeMatchesSound(v, n, 0, 0);
  }

  lemma RenamesNotASpectator()
    ensures ScreamingSnake("NotASpectator") == "NOT_A_SPECTATOR"
  {
    var v, n := "NotASpectator", "NOT_A_SPECTATOR";
    assert SnakeMatches(v, n, 12, 14);
    assert SnakeMatches(v, n, 11, 13);
    assert SnakeMatches(v, n, 10, 12);
    assert SnakeMatches(v, n, 9, 11);
    assert SnakeMatches(v, n, 8, 10);
    assert SnakeMatches(v, n, 7, 9);
    assert SnakeMatches(v, n, 6, 8);
    assert SnakeMatches(v, n, 5, 7);
    assert SnakeMatches(v, n, 4, 5);
    assert SnakeMatches(v, n, 3, 3);
    assert SnakeMatches(v, n, 2, 2);
    assert SnakeMatches(v, n, 1, 1);
    assert SnakeMatches(v, n, 0, 0);
    SnakeMatchesSound(v, n, 0, 0);
  }

  lemma RenamesSpectatorJoinFailed()
    ensures ScreamingSnake("SpectatorJoinFailed") == "SPECTATOR_JOIN_FAILED"
  {
    var v, n := "SpectatorJoinFailed", "SPECTATOR_JOIN_FAILED";
    assert SnakeMatches(v, n, 18, 20);
    assert SnakeMatches(v, n, 17, 19);
    assert SnakeMatches(v, n, 16, 18);
    assert SnakeMatches(v, n, 15, 17);
    assert SnakeMatches(v, n, 14, 16);
    assert SnakeMatches(v, n, 13, 14);
    assert SnakeMatches(v, n, 12, 13);
    assert SnakeMatches(v, n, 11, 12);
    assert SnakeMatches(v, n, 10, 11);
    assert SnakeMatches(v, n, 9, 9);
    assert SnakeMatches(v, n, 8, 8);
    assert SnakeMatches(v, n, 7, 7);
    assert SnakeMatches(v, n, 6, 6);
    assert SnakeMatches(v, n, 5, 5);
    assert SnakeMatches(v, n, 4, 4);
    assert SnakeMatches(v, n, 3, 3);
    assert SnakeMatches(v, n, 2, 2);
    assert SnakeMatches(v, n, 1, 1);
    assert SnakeMatches(v, n, 0, 0);
    SnakeMatchesSound(v, n, 0, 0);
  }

  lemma RenamesInternalError()
    ensures ScreamingSnake("InternalError") == "INTERNAL_ERROR"
  {
    var v, n := "InternalError", "INTERNAL_ERROR";
    assert SnakeMatches(v, n, 12, 13);
    assert SnakeMatches(v, n, 11, 12);
    assert SnakeMatches(v, n, 10, 11);
    assert SnakeMatches(v, n, 9, 10);
    assert SnakeMatches(v, n, 8, 8);
    assert SnakeMatches(v, n, 7, 7);
    assert SnakeMatches(v, n, 6, 6);
    assert SnakeMatches(v, n, 5, 5);
    assert SnakeMatches(v, n, 4, 4);
    assert SnakeMatches(v, n, 3, 3);
    assert SnakeMatches(v, n, 2, 2);
    assert SnakeMatches(v, n, 1, 1);
    assert SnakeMatches(v, n, 0, 0);
    SnakeMatchesSound(v, n, 0, 0);
  }

  lemma RenamesStorageError()
    ensures ScreamingSnake("StorageError") == "STORAGE_ERROR"
  {
    var v, n := "StorageError", "STORAGE_ERROR";
    assert SnakeMatches(v, n, 11, 12);
    assert SnakeMatches(v, n, 10, 11);
    assert SnakeMatches(v, n, 9, 10);
    assert SnakeMatches(v, n, 8, 9);
    assert SnakeMatches(v, n, 7, 7);
    assert SnakeMatches(v, n, 6, 6);
    assert SnakeMatches(v, n, 5, 5);
    assert SnakeMatches(v, n, 4, 4);
    assert SnakeMatches(v, n, 3, 3);
    assert SnakeMatches(v, n, 2, 2);
    assert SnakeMatches(v, n, 1, 1);
    assert SnakeMatches(v, n, 0, 0);
    SnakeMatchesSound(v, n, 0, 0);
  }

  lemma RenamesServiceUnavailable()
    ensures ScreamingSnake("ServiceUnavailable") == "SERVICE_UNAVAILABLE"
  {
    var v, n := "ServiceUnavailable", "SERVICE_UNAVAILABLE";
    assert SnakeMatches(v, n, 17, 18);
    assert SnakeMatches(v, n, 16, 17);
    assert SnakeMatches(v, n, 15, 16);
    assert SnakeMatches(v, n, 14, 15);
    assert SnakeMatches(v, n, 13, 14);
    assert SnakeMatches(v, n, 12, 13);
    assert SnakeMatches(v, n, 11, 12);
    assert SnakeMatches(v, n, 10, 11);
    assert SnakeMatches(v, n, 9, 10);
    assert SnakeMatches(v, n, 8, 9);
    assert SnakeMatches(v, n, 7, 7);
    assert SnakeMatches(v, n, 6, 6);
    assert SnakeMatches(v, n, 5, 5);
    assert SnakeMatches(v, n, 4, 4);
    assert SnakeMatches(v, n, 3, 3);
    assert SnakeMatches(v, n, 2, 2);
    assert SnakeMatches(v, n, 1, 1);
    assert SnakeMatches(v, n, 0, 0);
    SnakeMatchesSound(v, n, 0, 0);
  }
}
