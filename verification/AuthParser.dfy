/** src/parsers/auth.c: the credentials message (section 2 of RFC 1929). */
module AuthParser {
  import opened Bytes
  import opened ByteMachine
  import opened BufferModule
  import Fifo

  datatype State =
    | Version | UserLen | Username | PassLen | Password | Done
    | BadVersion | Error | BadUserLen | BadPassLen

  /** `user` and `pass` are the octets stored so far. */
  datatype Auth = Auth(state: State, user: seq<byte>, pass: seq<byte>, remaining: byte)

  const START := Auth(Version, [], [], 0)

  predicate IsError(p: Auth) {
    p.state.BadVersion? || p.state.Error? || p.state.BadUserLen? || p.state.BadPassLen?
  }

  predicate IsDone(p: Auth) { p.state.Done? || IsError(p) }

  function Feed(p: Auth, b: byte): Auth {
    match p.state
    case Version => p.(state := if b == 0x01 then UserLen else BadVersion)
    case UserLen => if b <= 0 then p.(state := BadUserLen) else p.(state := Username, remaining := b, user := [])
    case Username =>
      p.(user := p.user + [b], state := if |p.user| + 1 >= p.remaining then PassLen else Username)
    case PassLen => if b <= 0 then p.(state := BadPassLen) else p.(state := Password, remaining := b, pass := [])
    case Password =>
      p.(pass := p.pass + [b], state := if |p.pass| + 1 >= p.remaining then Done else Password)
    case _ => p
  }

  function Feeder(): (Auth, byte) -> Auth { (p: Auth, b: byte) => Feed(p, b) }

  function Parse(p: Auth, input: seq<byte>): (r: (Auth, seq<byte>))
    ensures |r.1| <= |input|
  {
    Consume(Feeder(), IsDone, p, input)
  }

  /** The outcome of the loop in terms of Parse. */
  lemma ConsumedParses(p: Auth, v: Fifo.View, p': Auth, v': Fifo.View)
    requires Consumed(Feeder(), IsDone, p, v, p', v')
    ensures var (q, rest) := Parse(p, v.contents);
            p' == q && v' == Fifo.Take(v, |v.contents| - |rest|)
  {
  }

  lemma ParseNothing(p: Auth)
    ensures Parse(p, []) == (p, [])
  {
  }

  lemma ParseStep(p: Auth, input: seq<byte>)
    requires input != []
    ensures Parse(p, input) ==
            var p' := Feed(p, input[0]);
            if IsDone(p') then (p', input[1..]) else Parse(p', input[1..])
  {
  }

  function Encode(user: seq<byte>, pass: seq<byte>): seq<byte>
    requires |user| < 256 && |pass| < 256
  {
    [0x01, |user|] + user + [|pass|] + pass
  }

  lemma {:induction false} UserPhase(got: seq<byte>, more: seq<byte>, n: byte, tail: seq<byte>)
    requires |got| < n == |got| + |more|
    ensures Parse(Auth(Username, got, [], n), more + tail) == Parse(Auth(PassLen, got + more, [], n), tail)
    decreases |more|
  {
    hide Parse;
    ParseStep(Auth(Username, got, [], n), more + tail);
    assert (more + tail)[1..] == more[1..] + tail;
    if |more| == 1 {
      assert more == [more[0]] && more[1..] + tail == tail;
    } else {
      UserPhase(got + [more[0]], more[1..], n, tail);
      assert got + [more[0]] + more[1..] == got + more;
    }
  }

  lemma {:induction false} PassPhase(user: seq<byte>, got: seq<byte>, more: seq<byte>, n: byte, tail: seq<byte>)
    requires |got| < n == |got| + |more|
    ensures Parse(Auth(Password, user, got, n), more + tail) == (Auth(Done, user, got + more, n), tail)
    decreases |more|
  {
    hide Parse;
    ParseStep(Auth(Password, user, got, n), more + tail);
    assert (more + tail)[1..] == more[1..] + tail;
    if |more| == 1 {
      assert more == [more[0]] && more[1..] + tail == tail;
    } else {
      PassPhase(user, got + [more[0]], more[1..], n, tail);
      assert got + [more[0]] + more[1..] == got + more;
    }
  }

  /** Decode after encode, for every name and password of 1 to 255 octets. */
  lemma CredentialsDecoded(user: seq<byte>, pass: seq<byte>, tail: seq<byte>)
    requires 0 < |user| < 256 && 0 < |pass| < 256
    ensures Parse(START, Encode(user, pass) + tail) == (Auth(Done, user, pass, |pass|), tail)
  {
    hide Parse;
    var atPass: seq<byte> := [|pass|] + (pass + tail);
    var atUser: seq<byte> := [|user|] + (user + atPass);
    assert Encode(user, pass) + tail == [0x01] + atUser;
    ParseStep(START, [0x01] + atUser);
    ParseStep(START.(state := UserLen), atUser);
    UserPhase([], user, |user|, atPass);
    assert [] + user == user && [] + pass == pass;
    ParseStep(Auth(PassLen, user, [], |user|), atPass);
    PassPhase(user, [], pass, |pass|, tail);
  }

  /** `heard` is what a parser in this state must have read. */
  ghost predicate Explains(p: Auth, heard: seq<byte>) {
    match p.state
    case Version => heard == []
    case UserLen => heard == [0x01]
    case Username => |p.user| < p.remaining && heard == [0x01, p.remaining] + p.user
    case PassLen => 0 < |p.user| < 256 && heard == [0x01, |p.user|] + p.user
    case Password =>
      0 < |p.user| < 256 && |p.pass| < p.remaining && heard == [0x01, |p.user|] + p.user + [p.remaining] + p.pass
    case Done => 0 < |p.user| < 256 && 0 < |p.pass| < 256 && heard == Encode(p.user, p.pass)
    case BadVersion => |heard| == 1 && heard[0] != 0x01
    case BadUserLen => heard == [0x01, 0x00]
    case BadPassLen => 0 < |p.user| < 256 && heard == [0x01, |p.user|] + p.user + [0x00]
    case Error => false
  }

  lemma ExplainsStep(p: Auth, heard: seq<byte>, b: byte)
    requires Explains(p, heard) && !IsDone(p)
    ensures Explains(Feed(p, b), heard + [b])
  {
  }

  /** What a parser took explains its state, wherever it started and over any number of inputs. */
  lemma {:induction false} ParseExplained(p: Auth, heard: seq<byte>, input: seq<byte>)
    requires Explains(p, heard) && !IsDone(p)
    ensures var (q, rest) := Parse(p, input);
            Explains(q, heard + input[..|input| - |rest|]) && input[|input| - |rest|..] == rest
    decreases |input|
  {
    hide Explains, Feed, IsDone;
    if input == [] {
      assert heard + [] == heard && Parse(p, input) == (p, []);
    } else {
      hide Parse;
      var b, later := input[0], input[1..];
      ParseStep(p, input);
      ExplainsStep(p, heard, b);
      if !IsDone(Feed(p, b)) {
        ParseExplained(Feed(p, b), heard + [b], later);
        Onwards(heard, input, |Parse(Feed(p, b), later).1|);
      } else {
        Onwards(heard, input, |later|);
        assert input[..1] == [b];
      }
    }
  }

  /** What a finished parser stored is what the octets it took encode. */
  lemma CredentialsExplained(input: seq<byte>)
    requires Parse(START, input).0.state.Done?
    ensures var (p, rest) := Parse(START, input);
            0 < |p.user| < 256 && 0 < |p.pass| < 256 && input == Encode(p.user, p.pass) + rest
  {
    hide Parse;
    var (p, rest) := Parse(START, input);
    var heard := input[..|input| - |rest|];
    ParseExplained(START, [], input);
    assert [] + heard == heard && input == heard + rest;
  }

  ghost predicate Carries(input: seq<byte>, user: seq<byte>, pass: seq<byte>) {
    0 < |user| < 256 && 0 < |pass| < 256 && Encode(user, pass) <= input
  }

  /** Done exactly on a message of the wire format. */
  lemma CredentialsAcceptedIff(input: seq<byte>)
    ensures Parse(START, input).0.state.Done? <==> exists user, pass :: Carries(input, user, pass)
  {
    if Parse(START, input).0.state.Done? {
      CredentialsExplained(input);
      var p := Parse(START, input).0;
      assert Carries(input, p.user, p.pass);
    }
    if user, pass :| Carries(input, user, pass) {
      var tail := input[|Encode(user, pass)|..];
      assert input == Encode(user, pass) + tail;
      CredentialsDecoded(user, pass, tail);
    }
  }

  /** No credentials message starts like this: a wrong version, or an empty name or password. */
  ghost predicate Broken(input: seq<byte>) {
    || (|input| >= 1 && input[0] != 0x01)
    || (|input| >= 2 && input[1] == 0)
    || (|input| >= 2 && var n: nat := input[1]; |input| > n + 2 && input[n + 2] == 0)
  }

  lemma ExplainedBroken(p: Auth, heard: seq<byte>, rest: seq<byte>)
    requires Explains(p, heard) && (IsDone(p) || rest == [])
    ensures Broken(heard + rest) <==> IsError(p)
  {
    if p.state.Done? {
      assert (heard + rest)[2 + |p.user|] == |p.pass|;
    } else if p.state.BadPassLen? {
      assert (heard + rest)[2 + |p.user|] == 0;
    } else {
      assert rest == [] ==> heard + rest == heard;
    }
  }

  /** The parser stops on an error exactly where no message goes on. */
  lemma CredentialsRefusedIff(input: seq<byte>)
    ensures IsError(Parse(START, input).0) <==> Broken(input)
    ensures !IsDone(Parse(START, input).0) ==> Parse(START, input).1 == []
  {
    hide Parse, Explains, Broken;
    var (p, rest) := Parse(START, input);
    var heard := input[..|input| - |rest|];
    NothingExplains();
    ParseExplained(START, [], input);
    assert [] + heard == heard && input == heard + rest;
    ParseLeaves(START, input);
    ExplainedBroken(p, heard, rest);
  }

  lemma NothingExplains()
    ensures Explains(START, []) && !IsDone(START)
  {
  }

  /** Octets are left only by a parser that is done. */
  lemma ParseLeaves(p: Auth, input: seq<byte>)
    ensures Parse(p, input).1 != [] ==> IsDone(Parse(p, input).0)
  {
  }

  const SUCCESS: byte := 0x00
  const FAIL: byte := 0x01

  /** auth_marshall: the two octets of the reply. */
  function Reply(status: byte): seq<byte> { [0x01, status] }

  /** struct auth_parser; each text array has a cell for the terminator of a 255-octet text. */
  class Parser {
    var state: State
    var userlen: byte
    const username: array<byte>
    var passlen: byte
    const passwd: array<byte>
    var remaining: byte
    var read: byte

    ghost predicate Valid()
      reads this, username, passwd
    {
      && username != passwd && username.Length == passwd.Length == 256
      && (state.Username? ==> read < remaining == userlen)
      && (state.Password? ==> read < remaining == passlen)
      && (UserKnown() ==> username[userlen] == 0)
      && (state.Done? ==> passwd[passlen] == 0)
      && (!state.Username? && !UserKnown() ==> username[0] == 0)
      && (!state.Password? && !state.Done? ==> passwd[0] == 0)
    }

    ghost predicate UserKnown()
      reads this
    {
      state.PassLen? || state.Password? || state.Done? || state.BadPassLen?
    }

    ghost function Value(): Auth
      requires Valid()
      reads this, username, passwd
    {
      Auth(state,
           if state.Username? then username[..read] else if UserKnown() then username[..userlen] else [],
           if state.Password? then passwd[..read] else if state.Done? then passwd[..passlen] else [],
           remaining)
    }

    constructor ()
      ensures Valid() && fresh(username) && fresh(passwd)
      ensures Value() == START
    {
      state := Version;
      userlen, passlen, remaining, read := 0, 0, 0, 0;
      username := new byte[256](_ => 0);
      passwd := new byte[256](_ => 0);
    }

    method FeedByte(b: byte)
      requires Valid()
      modifies this, username, passwd
      ensures Valid() && Value() == Feed(old(Value()), b)
    {
      match state {
        case Version =>
          state := if b == 0x01 then UserLen else BadVersion;
        case UserLen =>
          if b <= 0 {
            state := BadUserLen;
          } else {
            remaining, read := b, 0;
            userlen := b;
            state := Username;
          }
        case Username =>
          FeedUser(b);
        case PassLen =>
          if b <= 0 {
            state := BadPassLen;
          } else {
            remaining, read := b, 0;
            passlen := b;
            state := Password;
          }
        case Password =>
          FeedPass(b);
        case _ =>
      }
    }

    method FeedUser(b: byte)
      requires Valid() && state.Username?
      modifies this, username
      ensures Valid() && Value() == Feed(old(Value()), b)
    {
      username[read] := b;
      assert username[..read + 1] == old(username[..read]) + [b];
      read := read + 1;
      if read >= remaining {
        username[read] := 0;
        assert username[..read] == old(username[..read]) + [b];
        state := PassLen;
      }
    }

    method FeedPass(b: byte)
      requires Valid() && state.Password?
      modifies this, passwd
      ensures Valid() && Value() == Feed(old(Value()), b)
    {
      passwd[read] := b;
      assert passwd[..read + 1] == old(passwd[..read]) + [b];
      read := read + 1;
      if read >= remaining {
        passwd[read] := 0;
        assert passwd[..read] == old(passwd[..read]) + [b];
        state := Done;
      }
    }

    /** auth_consume. */
    method ConsumeBuffer(buff: Buffer)
      requires Valid() && buff.Valid() && buff.data != username && buff.data != passwd
      modifies this, username, passwd, buff, buff.data
      ensures Valid() && buff.Valid()
      ensures Consumed(Feeder(), IsDone, old(Value()), old(buff.View()), Value(), buff.View())
    {
      hide Progress, Consumed, Feed, Consume, Explains, Broken;
      ghost var feed, v, p := Feeder(), buff.View(), Value();
      ProgressStart(feed, IsDone, p, v);
      var more := buff.CanRead();
      while more
        invariant Valid() && buff.Valid() && more == Fifo.CanRead(buff.View())
        invariant Progress(feed, IsDone, p, v, Value(), buff.View())
        decreases |buff.View().contents|
      {
        ghost var q, w := Value(), buff.View();
        ProgressStep(feed, IsDone, p, v, q, w);
        var c := buff.Read();
        FeedByte(c);
        assert Value() == feed(q, w.contents[0]) && buff.View() == Fifo.Take(w, 1);
        if state == Done || state == BadVersion || state == Error || state == BadUserLen || state == BadPassLen {
          return;
        }
        more := buff.CanRead();
      }
      ProgressEnd(feed, IsDone, p, v, Value(), buff.View());
    }

    /** What checkUser sees: the C strings in the arrays are those of the octets received. */
    lemma StoredStrings()
      requires Valid() && IsDone(Value())
      ensures CString(username[..]) == CString(Value().user)
      ensures CString(passwd[..]) == CString(Value().pass)
    {
      var u, w := if UserKnown() then userlen else 0, if state.Done? then passlen else 0;
      assert username[..] == username[..u] + [0] + username[u + 1..];
      assert passwd[..] == passwd[..w] + [0] + passwd[w + 1..];
      CStringBeforeTerminator(username[..u], username[u + 1..]);
      CStringBeforeTerminator(passwd[..w], passwd[w + 1..]);
    }
  }

  method Marshall(b: Buffer, status: byte) returns (n: int)
    requires b.Valid()
    modifies b, b.data
    ensures b.Valid()
    ensures if Fifo.Room(old(b.View())) < 2 then n == -1 && b.View() == old(b.View())
            else n == 2 && b.View() == Fifo.Put(old(b.View()), Reply(status))
  {
    var room := b.WritePtr();
    if room < 2 {
      return -1;
    }
    b.Place(Reply(status));
    b.WriteAdv(2);
    return 2;
  }
}
