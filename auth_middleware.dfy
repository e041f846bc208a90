/**
 * The authentication middleware: it takes the token from the `Authorization` header (the
 * second piece of the header split on single spaces), has it verified, and either records the
 * decoded user and passes the request on, or answers 401 with one of three messages.
 */
module AuthMiddleware {
  import opened Wrappers

  const NoTokenText := "Acesso negado. Nenhum token fornecido."
  const MalformedText := "Acesso negado. Token mal formatado."
  const InvalidText := "Token inválido."
  const Unauthorized := 401

  // ---------------------------------------------------------------------------------------
  // Splitting on a single space
  // ---------------------------------------------------------------------------------------

  /**
   * `s.split(' ')`: the pieces between single spaces. Two spaces in a row leave an empty piece
   * between them, and the empty string splits into one empty piece.
   */
  function Split(s: string): (parts: seq<string>)
    ensures |parts| >= 1
    ensures forall k :: 0 <= k < |parts| ==> ' ' !in parts[k]
  {
    if s == [] then [""]
    else
      var rest := Split(s[1..]);
      if s[0] == ' ' then [""] + rest
      else [[s[0]] + rest[0]] + rest[1..]
  }

  /** The pieces glued back together with single spaces. */
  function Join(parts: seq<string>): string
    requires |parts| >= 1
  {
    if |parts| == 1 then parts[0] else parts[0] + " " + Join(parts[1..])
  }

  /** Splitting loses nothing: joining the pieces gives back the header. */
  lemma {:induction false} JoinSplit(s: string)
    ensures Join(Split(s)) == s
  {
    if s != [] {
      var rest := Split(s[1..]);
      JoinSplit(s[1..]);
      if s[0] == ' ' {
        assert Split(s) == [""] + rest;
        assert ([""] + rest)[1..] == rest;
      } else {
        var parts := Split(s);
        assert parts == [[s[0]] + rest[0]] + rest[1..];
        if |rest| == 1 {
          assert Join(parts) == [s[0]] + rest[0];
        } else {
          assert parts[1..] == rest[1..];
          assert Join(rest) == rest[0] + " " + Join(rest[1..]);
        }
      }
    }
  }

  /** A string without a space followed by a space and more: its piece, then the rest's. */
  lemma {:induction false} SplitAfterWord(w: string, t: string)
    requires ' ' !in w
    ensures Split(w + " " + t) == [w] + Split(t)
  {
    if w == [] {
      assert w + " " + t == [' '] + t;
      assert ([' '] + t)[1..] == t;
    } else {
      assert ' ' !in w[1..];
      SplitAfterWord(w[1..], t);
      var s := w + " " + t;
      assert s[0] == w[0] && s[1..] == w[1..] + " " + t;
      var rest := Split(s[1..]);
      assert rest[0] == w[1..] && rest[1..] == Split(t);
      assert [w[0]] + w[1..] == w;
    }
  }

  /** A string without a space is one piece. */
  lemma {:induction false} SplitWord(w: string)
    requires ' ' !in w
    ensures Split(w) == [w]
  {
    if w != [] {
      assert ' ' !in w[1..];
      SplitWord(w[1..]);
      assert [w[0]] + w[1..] == w;
    }
  }

  /** Pieces without spaces, joined, split back into the same pieces. */
  lemma {:induction false} SplitJoin(parts: seq<string>)
    requires |parts| >= 1
    requires forall k :: 0 <= k < |parts| ==> ' ' !in parts[k]
    ensures Split(Join(parts)) == parts
  {
    if |parts| == 1 {
      SplitWord(parts[0]);
    } else {
      SplitJoin(parts[1..]);
      SplitAfterWord(parts[0], Join(parts[1..]));
    }
  }

  // ---------------------------------------------------------------------------------------
  // The decision
  // ---------------------------------------------------------------------------------------

  /** `authHeader.split(' ')[1]`: the second piece, undefined when there is none. */
  function Token(header: string): (t: Option<string>)
    ensures t.Some? <==> |Split(header)| >= 2
    ensures t.Some? ==> t.value == Split(header)[1] && ' ' !in t.value
  {
    var parts := Split(header);
    if |parts| >= 2 then Some(parts[1]) else None
  }

  /** What the token decodes to; the middleware keeps its `user` field. */
  datatype Decoded<User> = Decoded(user: User)

  /** The middleware's decision: answer 401 with a message, or pass the request on with a user. */
  datatype Outcome<User> = Reject(status: int, message: string) | Pass(user: User)

  /**
   * The middleware as a decision. `header` is the `Authorization` header (`None` when absent);
   * `verify` stands for the token check with the server's secret: `None` where it throws.
   * The empty header counts as missing and the empty token as malformed, as falsy values do.
   */
  function Authenticate<User>(header: Option<string>, verify: string -> Option<Decoded<User>>): (o: Outcome<User>)
    ensures o.Reject? ==> o.status == Unauthorized
    ensures o == Reject(Unauthorized, NoTokenText) <==> header.None? || header.value == ""
    ensures o == Reject(Unauthorized, MalformedText) <==>
      header.Some? && header.value != "" && (Token(header.value).None? || Token(header.value).value == "")
    ensures o == Reject(Unauthorized, InvalidText) <==>
      header.Some? && header.value != "" && Token(header.value).Some? && Token(header.value).value != ""
      && verify(Token(header.value).value).None?
  {
    if header.None? || header.value == "" then Reject(Unauthorized, NoTokenText)
    else
      var token := Token(header.value);
      if token.None? || token.value == "" then Reject(Unauthorized, MalformedText)
      else
        match verify(token.value)
        case None => Reject(Unauthorized, InvalidText)
        case Some(decoded) => Pass(decoded.user)
  }

  /** The request passes exactly when there is a non-empty token and it verifies, with its user. */
  lemma PassIffVerified<User>(header: Option<string>, verify: string -> Option<Decoded<User>>)
    ensures Authenticate(header, verify).Pass? <==>
      header.Some? && header.value != "" && Token(header.value).Some? && Token(header.value).value != ""
      && verify(Token(header.value).value).Some?
    ensures Authenticate(header, verify).Pass? ==>
      Authenticate(header, verify).user == verify(Token(header.value).value).value.user
  {
  }

  /** Any scheme word is accepted: `scheme token` gives `token`, whatever the scheme. */
  lemma AnySchemeAccepted(scheme: string, token: string)
    requires ' ' !in scheme && ' ' !in token
    ensures Token(scheme + " " + token) == Some(token)
  {
    SplitAfterWord(scheme, token);
    SplitWord(token);
  }

  /** "Basic abc" yields the token "abc". */
  lemma BasicSchemeExample()
    ensures Token("Basic abc") == Some("abc")
  {
    assert "Basic abc" == "Basic" + " " + "abc";
    AnySchemeAccepted("Basic", "abc");
  }

  /** A header without a space has no second piece, so it is malformed. */
  lemma SchemeAloneMalformed<User>(verify: string -> Option<Decoded<User>>)
    ensures Authenticate(Some("Bearer"), verify) == Reject(Unauthorized, MalformedText)
  {
    SplitWord("Bearer");
  }

  /** Two spaces leave an empty second piece, so the header is malformed. */
  lemma DoubleSpaceMalformed<User>(verify: string -> Option<Decoded<User>>)
    ensures Authenticate(Some("Bearer  x"), verify) == Reject(Unauthorized, MalformedText)
  {
    assert "Bearer  x" == "Bearer" + " " + (" " + "x");
    SplitAfterWord("Bearer", " x");
    assert " x" == "" + " " + "x";
    SplitAfterWord("", "x");
  }

  // ---------------------------------------------------------------------------------------
  // The handler
  // ---------------------------------------------------------------------------------------

  /** What the handler does to the request and the response, in order. */
  datatype Event<User> = SetUser(user: User) | CallNext | Respond(status: int, message: string)

  /** The events a decision produces: set the user then call next, or send the 401. */
  function Effects<User>(o: Outcome<User>): (es: seq<Event<User>>)
    ensures 1 <= |es| <= 2
    ensures CallNext in es <==> o.Pass?
    ensures o.Pass? ==> es[0] == SetUser(o.user) && es[|es| - 1] == CallNext
    ensures o.Reject? ==> |es| == 1 && es[0].Respond? && es[0].status == o.status && es[0].message == o.message
  {
    match o
    case Pass(u) => [SetUser(u), CallNext]
    case Reject(status, message) => [Respond(status, message)]
  }

  /**
   * Each request ends one way: next is called exactly when nothing is sent, and the user is set
   * before next is called.
   */
  lemma ExactlyOneOutcome<User>(o: Outcome<User>)
    ensures CallNext in Effects(o) <==> !(exists k :: 0 <= k < |Effects(o)| && Effects(o)[k].Respond?)
    ensures |Effects(o)| <= 2
    ensures CallNext in Effects(o) ==> Effects(o)[0].SetUser? && Effects(o)[1] == CallNext
  {
    if o.Reject? {
      assert Effects(o)[0].Respond?;
    }
  }

  /** One request's exchange: the user stored on the request and the events so far. */
  class Exchange<User> {
    var user: Option<User>
    var events: seq<Event<User>>

    constructor()
      ensures user == None && events == []
    {
      user := None;
      events := [];
    }

    /** The middleware run on this exchange. */
    method Handle(header: Option<string>, verify: string -> Option<Decoded<User>>)
      modifies this
      ensures events == old(events) + Effects(Authenticate(header, verify))
      ensures Authenticate(header, verify).Pass? ==> user == Some(Authenticate(header, verify).user)
      ensures Authenticate(header, verify).Reject? ==> user == old(user)
    {
      if header.None? || header.value == "" {
        events := events + [Respond(Unauthorized, NoTokenText)];
        return;
      }

      var token := Token(header.value);

      if token.None? || token.value == "" {
        events := events + [Respond(Unauthorized, MalformedText)];
        return;
      }

      var decoded := verify(token.value);
      if decoded.Some? {
        user := Some(decoded.value.user);
        events := events + [SetUser(decoded.value.user)];
        events := events + [CallNext];
      } else {
        events := events + [Respond(Unauthorized, InvalidText)];
      }
    }
  }
}
