/**
 * The origin matcher: from the allow-list, the credentials flag and the
 * request's Origin value, the Access-Control-Allow-Origin value to send,
 * or None when the header is to be left out (the only denial signal).
 */
module Origin {

  import opened Wrappers
  import opened Config

  /**
   * Scans the allow-list in order. A wildcard entry admits every origin: it
   * answers `*`, except that with credentials on a non-empty origin is echoed
   * instead. Any other entry admits exactly the (non-empty) origin equal to it.
   * An empty Origin, which is how an absent one reads, only passes a wildcard.
   */
  function AllowedOrigin(allowOrigins: seq<string>, credentials: bool, origin: string): (r: Option<string>)
    ensures r.Some? <==> Wildcard in allowOrigins || (origin != "" && origin in allowOrigins)
    ensures r.Some? ==> r.value != "" && (r.value == origin || r.value == Wildcard)
    ensures r.Some? && r.value != origin ==> Wildcard in allowOrigins && (!credentials || origin == "")
    ensures Wildcard !in allowOrigins && r.Some? ==> r.value == origin
    ensures allowOrigins != [] && allowOrigins[0] == Wildcard && (!credentials || origin == "") ==> r == Some(Wildcard)
  {
    if allowOrigins == [] then None
    else if allowOrigins[0] == Wildcard then
      (if credentials && origin != "" then Some(origin) else Some(Wildcard))
    else if origin != "" && allowOrigins[0] == origin then Some(origin)
    else AllowedOrigin(allowOrigins[1..], credentials, origin)
  }

  /** With credentials on, a non-empty origin that is admitted is always echoed, never `*`. */
  lemma CredentialsEchoOrigin(allowOrigins: seq<string>, origin: string)
    requires origin != ""
    requires Wildcard in allowOrigins || origin in allowOrigins
    ensures AllowedOrigin(allowOrigins, true, origin) == Some(origin)
  {
  }

  /** An origin listed before any wildcard entry is echoed exactly, credentials or not. */
  lemma {:induction false} ListedOriginEchoed(allowOrigins: seq<string>, credentials: bool, origin: string, k: nat)
    requires origin != "" && k < |allowOrigins| && allowOrigins[k] == origin
    requires forall j :: 0 <= j < k ==> allowOrigins[j] != Wildcard
    ensures AllowedOrigin(allowOrigins, credentials, origin) == Some(origin)
  {
    if allowOrigins[0] != Wildcard && allowOrigins[0] != origin {
      ListedOriginEchoed(allowOrigins[1..], credentials, origin, k - 1);
    }
  }

  /** A wildcard entry reached before any entry naming the origin answers `*` when credentials are
      off or the origin is empty. */
  lemma {:induction false} WildcardAnswersStar(allowOrigins: seq<string>, credentials: bool, origin: string, k: nat)
    requires k < |allowOrigins| && allowOrigins[k] == Wildcard
    requires forall j :: 0 <= j < k ==> allowOrigins[j] != Wildcard && (origin == "" || allowOrigins[j] != origin)
    requires !credentials || origin == ""
    ensures AllowedOrigin(allowOrigins, credentials, origin) == Some(Wildcard)
  {
    if k > 0 {
      WildcardAnswersStar(allowOrigins[1..], credentials, origin, k - 1);
    }
  }

  /** The answer depends on the first wildcard or matching entry only: entries after it never matter. */
  lemma {:induction false} FirstMatchDecides(front: seq<string>, back: seq<string>, credentials: bool, origin: string)
    requires AllowedOrigin(front, credentials, origin).Some?
    ensures AllowedOrigin(front + back, credentials, origin) == AllowedOrigin(front, credentials, origin)
  {
    assert (front + back)[0] == front[0];
    if front[0] != Wildcard && !(origin != "" && front[0] == origin) {
      assert (front + back)[1..] == front[1..] + back;
      FirstMatchDecides(front[1..], back, credentials, origin);
    }
  }
}
