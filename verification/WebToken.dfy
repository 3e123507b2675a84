/** The signed tokens of the web channel; the hash and the JSON library are parameters. */
module WebToken {
  import opened Prelude
  import opened PyText
  import opened Base64Url

  /** Claims as the reader sees them; absent or of another type is `None`. */
  datatype Claims = Claims(sub: Option<string>, iat: int, exp: Option<int>)

  datatype Parsed = NotJson | NotAnObject | Object(claims: Claims)

  /** The keyed hash, the encoded header, and the JSON text of a payload and its reader. */
  datatype Library = Library(mac: (string, string) -> seq<Byte>, header: seq<Byte>,
                             write: Claims -> seq<Byte>, read: seq<Byte> -> Parsed)

  ghost predicate ReadsBack(l: Library) {
    forall c :: l.read(l.write(c)) == Object(c)
  }

  /** The user, `None` for a rejected token, or the error of a signed payload that is no object. */
  datatype Verdict = Subject(user: string) | Rejected | Raises

  function SignedPart(l: Library, claims: Claims): string {
    Encode(l.header) + "." + Encode(l.write(claims))
  }

  /** `create_jwt`. */
  function Create(l: Library, user: string, secret: string, now: int, expiresIn: int): string {
    var signed := SignedPart(l, Claims(Some(user), now, Some(now + expiresIn)));
    signed + "." + Encode(l.mac(secret, signed))
  }

  function Read(l: Library, payload: string, time: real): Verdict {
    match Decode(payload)
    case None => Rejected
    case Some(bytes) =>
      match l.read(bytes)
      case NotJson => Rejected
      case NotAnObject => Raises
      case Object(claims) =>
        if claims.exp.Some? && time > claims.exp.value as real then Rejected
        else if claims.sub.Some? then Subject(claims.sub.value)
        else Rejected
  }

  /** `verify_jwt`. */
  function Verify(l: Library, token: string, secret: string, time: real): Verdict {
    var parts := Split(token, '.', |token|);
    if |parts| != 3 then Rejected
    else if Decode(parts[2]) != Some(l.mac(secret, parts[0] + "." + parts[1])) then Rejected
    else Read(l, parts[1], time)
  }

  /** A token falls apart into exactly its three parts. */
  lemma TokenSplits(a: string, b: string, c: string)
    requires '.' !in a && '.' !in b && '.' !in c
    ensures var token := a + "." + b + "." + c; Split(token, '.', |token|) == [a, b, c]
  {
    var token := a + "." + b + "." + c;
    assert token == a + ['.'] + (b + ['.'] + c);
    SplitOff(a, '.', b + ['.'] + c, |token|);
    SplitOff(b, '.', c, |token| - 1);
    SplitWhole(c, '.', |token| - 2);
  }

  /**
   A token made for a user is verified as that user under every secret that gives the same hash,
   in particular its own, at every time up to its expiry and at none after; never otherwise.
   */
  lemma TokenRoundTrip(l: Library, user: string, secret: string, other: string, now: int, expiresIn: int, time: real)
    requires ReadsBack(l)
    ensures var signed := SignedPart(l, Claims(Some(user), now, Some(now + expiresIn)));
            Verify(l, Create(l, user, secret, now, expiresIn), other, time)
            == if l.mac(other, signed) == l.mac(secret, signed) && time <= (now + expiresIn) as real then Subject(user) else Rejected
  {
    var claims := Claims(Some(user), now, Some(now + expiresIn));
    var head, payload := Encode(l.header), Encode(l.write(claims));
    var signed := SignedPart(l, claims);
    var signature := Encode(l.mac(secret, signed));
    EncodedIsAlphabet(l.header);
    EncodedIsAlphabet(l.write(claims));
    EncodedIsAlphabet(l.mac(secret, signed));
    TokenSplits(head, payload, signature);
    assert Create(l, user, secret, now, expiresIn) == head + "." + payload + "." + signature;
    DecodeInvertsEncode(l.mac(secret, signed));
    DecodeInvertsEncode(l.write(claims));
  }

  lemma SplitInTwo(s: string, most: nat) returns (head: string, rest: string)
    requires most > 0 && |Split(s, '.', most)| > 1
    ensures s == head + "." + rest && '.' !in head
    ensures Split(s, '.', most) == [head] + Split(rest, '.', most - 1)
  {
    var i := Index(s, '.', 0);
    head, rest := s[..i], s[i+1..];
  }

  lemma OnePart(s: string, most: nat)
    requires most > 0 && |Split(s, '.', most)| == 1
    ensures '.' !in s && Split(s, '.', most) == [s]
  {
    var i := Index(s, '.', 0);
    if i < |s| {
      SplitIsSome(s[i+1..], most - 1);
    }
  }

  lemma SplitIsSome(s: string, most: nat)
    ensures |Split(s, '.', most)| > 0
  {
  }

  /** Three parts are all there is: no dot in any of them. */
  lemma ThreeParts(token: string) returns (head: string, payload: string, signature: string)
    requires |Split(token, '.', |token|)| == 3
    ensures token == head + "." + payload + "." + signature
    ensures Split(token, '.', |token|) == [head, payload, signature]
    ensures '.' !in head && '.' !in payload && '.' !in signature
  {
    var rest;
    assert token != "";
    head, rest := SplitInTwo(token, |token|);
    var most := |token| - 1;
    assert |rest| <= most && |Split(rest, '.', most)| == 2;
    assert most > 0;
    payload, signature := SplitInTwo(rest, most);
    assert |signature| + 1 <= |rest|;
    if most > 1 {
      OnePart(signature, most - 1);
    }
    Regroup(head, payload, signature);
  }

  lemma Regroup(a: string, b: string, c: string)
    ensures a + "." + (b + "." + c) == a + "." + b + "." + c
  {
  }

  /** The three parts of a token that a reader who knows the secret accepts for this user at this time. */
  ghost predicate Signed(l: Library, head: string, payload: string, signature: string, secret: string, user: string, time: real) {
    && '.' !in head && '.' !in payload && '.' !in signature
    && Decode(signature) == Some(l.mac(secret, head + "." + payload))
    && exists bytes, claims :: Decode(payload) == Some(bytes) && l.read(bytes) == Object(claims)
         && claims.sub == Some(user) && (claims.exp.Some? ==> time <= claims.exp.value as real)
  }

  lemma SignedIsVerified(l: Library, head: string, payload: string, signature: string, secret: string, user: string, time: real)
    requires Signed(l, head, payload, signature, secret, user, time)
    ensures Verify(l, head + "." + payload + "." + signature, secret, time) == Subject(user)
  {
    TokenSplits(head, payload, signature);
    assert Read(l, payload, time) == Subject(user);
  }

  lemma ReadIsSigned(l: Library, head: string, payload: string, signature: string, secret: string, user: string, time: real)
    requires '.' !in head && '.' !in payload && '.' !in signature
    requires Decode(signature) == Some(l.mac(secret, head + "." + payload)) && Read(l, payload, time) == Subject(user)
    ensures Signed(l, head, payload, signature, secret, user, time)
  {
  }

  /**
   A token is verified as a user exactly when it has three parts, the last is the keyed hash of the
   first two, and the second names the user and has not expired.
   */
  lemma VerifiedIsSigned(l: Library, token: string, secret: string, user: string, time: real)
    ensures Verify(l, token, secret, time) == Subject(user)
       <==> exists head, payload, signature :: token == Joined(head, payload, signature) && Signed(l, head, payload, signature, secret, user, time)
  {
    if Verify(l, token, secret, time) == Subject(user) {
      var head, payload, signature := ThreeParts(token);
      ReadIsSigned(l, head, payload, signature, secret, user, time);
      assert token == Joined(head, payload, signature);
    }
    if head, payload, signature :| token == Joined(head, payload, signature) && Signed(l, head, payload, signature, secret, user, time) {
      SignedIsVerified(l, head, payload, signature, secret, user, time);
    }
  }

  function Joined(head: string, payload: string, signature: string): string {
    head + "." + payload + "." + signature
  }
}
