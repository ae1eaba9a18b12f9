/** Versioned secrets (internal/cryptography/keys.go) with the primitives idealised:
    HMAC is injective per purpose and version, and a sealed payload opens only in the
    context it was sealed for. */
module Cryptography {
  import opened Basics
  import opened Text

  type Version = string

  datatype Keys = Keys(
    activeSeal: Version, seal: set<Version>,
    activeSearch: Version, search: set<Version>,
    activeFingerprint: Version, fingerprint: set<Version>)
  {
    /** New refuses a configuration whose active version has no key. */
    predicate Valid() {
      activeSeal in seal && activeSearch in search && activeFingerprint in fingerprint
    }

    /** A rotation keeps every version some stored row may still name. */
    predicate RetainedBy(next: Keys) {
      && next.Valid()
      && seal <= next.seal && search <= next.search && fingerprint <= next.fingerprint
    }
  }

  /** HMAC of one normalised word under the search key of `version`. */
  datatype Token = Token(version: Version, word: string)

  function Blind(version: Version, words: set<string>): set<Token> {
    set w | w in words :: Token(version, w)
  }

  /** Containment of blind tokens is containment of words, within one version and
      never across two. */
  lemma BlindIsMonotone(v: Version, q: set<string>, v': Version, words: set<string>)
    ensures Blind(v, q) <= Blind(v', words) <==> q == {} || (v == v' && q <= words)
  {
    if Blind(v, q) <= Blind(v', words) {
      forall w | w in q ensures v == v' && w in words {
        assert Token(v, w) in Blind(v', words);
      }
    }
  }

  const INDEX_WORDS: nat := 2048
  const QUERY_WORDS: nat := 8

  function IndexOf(k: Keys, u: Unicode, text: string): Result<(Version, set<Token>)> {
    if |Words(u, text)| > INDEX_WORDS then Err(Invalid)
    else Ok((k.activeSearch, Blind(k.activeSearch, Words(u, text))))
  }

  function QueriesOf(k: Keys, u: Unicode, text: string): Result<map<Version, set<Token>>> {
    if |Words(u, text)| > QUERY_WORDS || Words(u, text) == {} then Err(Invalid)
    else Ok(map v | v in k.search :: Blind(v, Words(u, text)))
  }

  method BlindWords(version: Version, words: set<string>) returns (out: set<Token>)
    ensures out == Blind(version, words)
  {
    out := {};
    var rest := words;
    while rest != {}
      invariant rest <= words
      invariant out == Blind(version, words - rest)
      decreases rest
    {
      var w :| w in rest;
      out, rest := out + {Token(version, w)}, rest - {w};
    }
    assert words - rest == words;
  }

  method Index(k: Keys, u: Unicode, text: string) returns (r: Result<(Version, set<Token>)>)
    ensures r == IndexOf(k, u, text)
  {
    var w := CollectWords(u, text, INDEX_WORDS);
    if w.Err? { return Err(w.error); }
    var tokens := BlindWords(k.activeSearch, w.value);
    return Ok((k.activeSearch, tokens));
  }

  /** Queries blinds the words once under every retained version. */
  method Queries(k: Keys, u: Unicode, text: string) returns (r: Result<map<Version, set<Token>>>)
    ensures r == QueriesOf(k, u, text)
  {
    var w := CollectWords(u, text, QUERY_WORDS);
    if w.Err? || w.value == {} { return Err(Invalid); }
    var out: map<Version, set<Token>> := map[];
    var rest := k.search;
    while rest != {}
      invariant rest <= k.search
      invariant out == map v | v in k.search - rest :: Blind(v, w.value)
      decreases rest
    {
      var v :| v in rest;
      var tokens := BlindWords(v, w.value);
      out, rest := out[v := tokens], rest - {v};
    }
    assert k.search - rest == k.search;
    return Ok(out);
  }

  /** A ciphertext together with the context authenticated by its additional data. */
  datatype Sealed<P> = Sealed(version: Version, conversation: Id, message: Id, payload: P)

  function Seal<P>(k: Keys, conversation: Id, message: Id, payload: P): Sealed<P> {
    Sealed(k.activeSeal, conversation, message, payload)
  }

  function Open<P>(k: Keys, conversation: Id, message: Id, s: Sealed<P>): Result<P> {
    if s.version in k.seal && s.conversation == conversation && s.message == message
    then Ok(s.payload)
    else Err(Crypto)
  }

  /** HMAC of a canonical command; a version whose key is gone is an error. */
  datatype Digest<C> = Digest(version: Version, command: C)

  function Fingerprint<C>(k: Keys, version: Version, command: C): Result<Digest<C>> {
    if version in k.fingerprint then Ok(Digest(version, command)) else Err(Crypto)
  }
}
