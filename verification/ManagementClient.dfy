/** management_protocol/management_protocol_handler.c: how the client fills its requests and reads replies. */
module ManagementClient {
  import opened Bytes
  import opened AdminForm

  /** The longest name, password or value the client accepts. */
  const MAX_TEXT: nat := 10

  // ----- the layouts written out

  lemma PutWire(name: seq<byte>, pass: seq<byte>)
    requires |name| < 256 && |pass| < 256
    ensures Encode(PUT, [[0x01], [0x00], name, pass]) == [0x01, 0x00, |name|] + name + [|pass|] + pass
  {
    var values: seq<seq<byte>> := [[0x01], [0x00], name, pass];
    assert EncodeFrom(PUT, values, 3) == [|pass|] + pass;
    assert EncodeFrom(PUT, values, 2) == [|name|] + name + ([|pass|] + pass);
    assert EncodeFrom(PUT, values, 1) == [0x00] + EncodeFrom(PUT, values, 2);
  }

  lemma EditWire(name: seq<byte>, attr: byte, value: seq<byte>)
    requires |name| < 256 && |value| < 256
    ensures Encode(EDIT, [[0x02], [0x00], name, [attr], value]) == [0x02, 0x00, |name|] + name + [attr, |value|] + value
  {
    var values: seq<seq<byte>> := [[0x02], [0x00], name, [attr], value];
    assert EncodeFrom(EDIT, values, 4) == [|value|] + value;
    assert EncodeFrom(EDIT, values, 3) == [attr] + ([|value|] + value);
    assert EncodeFrom(EDIT, values, 2) == [|name|] + name + ([attr] + ([|value|] + value));
    assert EncodeFrom(EDIT, values, 1) == [0x00] + EncodeFrom(EDIT, values, 2);
  }

  lemma DeleteWire(name: seq<byte>)
    requires |name| < 256
    ensures Encode(DELETE, [[0x05], [0x00], name]) == [0x05, 0x00, |name|] + name
  {
    var values: seq<seq<byte>> := [[0x05], [0x00], name];
    assert EncodeFrom(DELETE, values, 2) == [|name|] + name;
    assert EncodeFrom(DELETE, values, 1) == [0x00] + ([|name|] + name);
  }

  lemma ConnectWire(pass: seq<byte>)
    requires |pass| < 256
    ensures Encode(CONNECT, [[0x00], pass]) == [0x00, |pass|] + pass
  {
    var values: seq<seq<byte>> := [[0x00], pass];
    assert EncodeFrom(CONNECT, values, 1) == [|pass|] + pass;
  }

  lemma ShortWires(a: byte, b: byte, n: seq<byte>)
    requires |n| == 4
    ensures Encode(GET, [[0x00], [a]]) == [0x00, a]
    ensures Encode(CONFIGSTATUS, [[0x04], [a], [b]]) == [0x04, a, b]
    ensures Encode(CONFIGBUFFSIZE, [[0x03], n]) == [0x03] + n
  {
    assert EncodeFrom(GET, [[0x00], [a]], 1) == [a];
    assert EncodeFrom(CONFIGSTATUS, [[0x04], [a], [b]], 2) == [b];
    assert EncodeFrom(CONFIGSTATUS, [[0x04], [a], [b]], 1) == [a] + [b];
    assert EncodeFrom(CONFIGBUFFSIZE, [[0x03], n], 1) == n;
  }

  // ----- requests, filled by index

  /** strcpy of a C string, terminator included, to dst[at..]. */
  method StrCpy(dst: array<byte>, at: nat, s: seq<byte>)
    requires at + |s| < dst.Length
    modifies dst
    ensures dst[..at + |s| + 1] == old(dst[..at]) + s + [0]
    ensures dst[at + |s| + 1..] == old(dst[at + |s| + 1..])
  {
    var i := 0;
    while i < |s|
      invariant i <= |s| && dst[..at + i] == old(dst[..at]) + s[..i]
      invariant forall k :: at + i <= k < dst.Length ==> dst[k] == old(dst[k])
    {
      dst[at + i] := s[i];
      assert dst[..at + i + 1] == dst[..at + i] + [s[i]];
      i := i + 1;
    }
    dst[at + i] := 0;
    assert dst[..at + i + 1] == dst[..at + i] + [0] && s[..i] == s;
  }

  /** Overwriting the octet behind a filled prefix extends the prefix. */
  method PutAt(dst: array<byte>, at: nat, b: byte)
    requires at < dst.Length
    modifies dst
    ensures dst[..at + 1] == old(dst[..at]) + [b]
    ensures dst[at + 1..] == old(dst[at + 1..])
  {
    dst[at] := b;
    assert dst[..at + 1] == dst[..at] + [b];
  }

  /**
   * login: two octets too many go out, the terminator strcpy wrote and one that
   * was never written (`junk`, whatever realloc left there).
   */
  method Login(password: seq<byte>, junk: byte) returns (sent: Option<seq<byte>>)
    ensures if |password| > 255 then sent == None
            else sent == Some(Encode(CONNECT, [[0x00], password]) + [0x00, junk])
  {
    if |password| > 255 {
      return None;
    }
    var n := |password|;
    var msg := new byte[2 + n + 2](_ => junk);
    msg[0], msg[1] := 0x00, n;
    assert msg[..2] == [0x00, n] && msg[2 + n + 1..] == [junk];
    StrCpy(msg, 2, password);
    ConnectWire(password);
    assert msg[..n + 4] == msg[..2 + n + 1] + msg[2 + n + 1..];
    assert [0x00, n] + password + [0] + [junk] == [0x00, n] + password + [0x00, junk];
    return Some(msg[..n + 4]);
  }

  /** send_put_request. */
  method PutRequest(username: seq<byte>, password: seq<byte>) returns (sent: Option<seq<byte>>)
    ensures if |username| > MAX_TEXT || |password| > MAX_TEXT then sent == None
            else sent == Some(Encode(PUT, [[0x01], [0x00], username, password]))
  {
    if |username| > MAX_TEXT || |password| > MAX_TEXT {
      return None;
    }
    var n, m := |username|, |password|;
    var request := new byte[2 + 2 * 4 + n + m + 1](_ => 0);
    request[0], request[1], request[2] := 0x01, 0x00, n;
    assert request[..3] == [0x01, 0x00, n];
    StrCpy(request, 3, username);
    assert request[..3 + n] == [0x01, 0x00, n] + username by {
      assert request[..3 + n] == request[..3 + n + 1][..3 + n];
    }
    PutAt(request, 3 + n, m);
    StrCpy(request, 4 + n, password);
    PutWire(username, password);
    assert request[..n + m + 4] == request[..4 + n + m + 1][..n + m + 4];
    return Some(request[..n + m + 4]);
  }

  lemma EditPieces(name: seq<byte>, attr: byte, value: seq<byte>)
    requires |name| < 256 && |value| < 256
    ensures [0x02, 0x00, |name|] + name + [attr] + [|value|] + value + [0]
         == Encode(EDIT, [[0x02], [0x00], name, [attr], value]) + [0x00]
  {
    hide Encode;
    EditWire(name, attr, value);
    assert [0x02, 0x00, |name|] + name + [attr] + [|value|] == [0x02, 0x00, |name|] + name + [attr, |value|];
  }

  /** send_edit_request: one octet too many goes out, the terminator of the value. */
  method EditRequest(username: seq<byte>, attribute: byte, value: seq<byte>) returns (sent: Option<seq<byte>>)
    ensures if |username| > MAX_TEXT || |value| > MAX_TEXT then sent == None
            else sent == Some(Encode(EDIT, [[0x02], [0x00], username, [attribute], value]) + [0x00])
  {
    if |username| > MAX_TEXT || |value| > MAX_TEXT {
      return None;
    }
    hide Encode;
    var n, m := |username|, |value|;
    var request := new byte[5 + n + m + 1](_ => 0);
    request[0], request[1], request[2] := 0x02, 0x00, n;
    assert request[..3] == [0x02, 0x00, n];
    StrCpy(request, 3, username);
    assert request[..3 + n] == [0x02, 0x00, n] + username by {
      assert request[..3 + n] == request[..3 + n + 1][..3 + n];
    }
    PutAt(request, 3 + n, attribute);
    PutAt(request, 4 + n, m);
    StrCpy(request, 5 + n, value);
    EditPieces(username, attribute, value);
    return Some(request[..n + m + 6]);
  }

  /** send_delete_request. */
  method DeleteRequest(username: seq<byte>) returns (sent: Option<seq<byte>>)
    ensures if |username| > MAX_TEXT then sent == None
            else sent == Some(Encode(DELETE, [[0x05], [0x00], username]))
  {
    if |username| > MAX_TEXT {
      return None;
    }
    var n := |username|;
    var request := new byte[3 + n + 1](_ => 0);
    request[0], request[1], request[2] := 0x05, 0x00, n;
    assert request[..3] == [0x05, 0x00, n];
    StrCpy(request, 3, username);
    DeleteWire(username);
    assert request[..n + 3] == request[..3 + n + 1][..n + 3];
    return Some(request[..n + 3]);
  }

  /** send_configbuffsize_request: the number most significant octet first. */
  method ConfigBuffSizeRequest(size: nat) returns (sent: seq<byte>)
    requires size < 0x1_0000_0000
    ensures sent == Encode(CONFIGBUFFSIZE, [[0x03], ToBigEndian(size)])
  {
    var request := new byte[5](_ => 0);
    request[0] := 0x03;
    request[1] := size / 0x100_0000 % 0x100;
    request[2] := size / 0x1_0000 % 0x100;
    request[3] := size / 0x100 % 0x100;
    request[4] := size % 0x100;
    ShortWires(0, 0, ToBigEndian(size));
    assert request[..] == [0x03] + ToBigEndian(size);
    return request[..];
  }

  /** send_configstatus_request. */
  method ConfigStatusRequest(field: byte, status: byte) returns (sent: seq<byte>)
    ensures sent == Encode(CONFIGSTATUS, [[0x04], [field], [status]])
  {
    var request := new byte[3](_ => 0);
    request[0], request[1], request[2] := 0x04, field, status;
    ShortWires(field, status, [0, 0, 0, 0]);
    assert request[..] == [0x04, field, status];
    return request[..];
  }

  /** send_get_request. */
  method GetRequest(command: byte) returns (sent: seq<byte>)
    ensures sent == Encode(GET, [[0x00], [command]])
  {
    var request := new byte[2](_ => 0);
    request[0], request[1] := 0x00, command;
    ShortWires(command, 0, [0, 0, 0, 0]);
    assert request[..] == [0x00, command];
    return request[..];
  }

  /** get_buffer_size over receive_get_request: the number in a reply, when the status is 0. */
  function NumberIn(reply: seq<byte>): Option<nat> {
    if |reply| < 6 || reply[0] != 0 || reply[1] != 4 then None else Some(FromBigEndian(reply[2..6]))
  }
}
