/** src/parsers/admin_edit.c in memory: the parser with the most slots. */
module AdminEdit {
  import opened Bytes
  import opened ByteMachine
  import opened BufferModule
  import opened AdminForm
  import Fifo

  datatype State =
    | Action | Field | ULen | Username | Attribute | ValueLen | Value | Done
    | ErrorAction | ErrorField | ErrorULen | ErrorAttribute | ErrorValueLen

  const USERNAME_ATTRIBUTE: byte := 0x00
  const PASSWORD_ATTRIBUTE: byte := 0x01

  const HEADER: seq<seq<byte>> := [[0x02], [0x00]]

  /** struct admin_edit_parser; each text array has a cell for the terminator of a 255-octet text. */
  class EditParser {
    var state: State
    var ulen: byte
    const username: array<byte>
    var attr: byte
    var valuelen: byte
    const value: array<byte>
    var remaining: byte
    var read: byte
    var status: byte

    ghost predicate Valid()
      reads this, username, value
    {
      && username != value && username.Length == value.Length == 256
      && (state.Username? ==> read < remaining == ulen)
      && (state.Value? ==> read < remaining == valuelen)
      && (UserKnown() ==> username[ulen] == 0)
      && (state.Done? ==> value[valuelen] == 0)
    }

    ghost predicate UserKnown()
      reads this
    {
      state.Attribute? || state.ValueLen? || state.Value? || state.Done? || state.ErrorAttribute? || state.ErrorValueLen?
    }

    /** The parser as an instance of the shared machine with the layout EDIT. */
    ghost function Form(): AdminForm.Form
      requires Valid()
      reads this, username, value
    {
      match state
      case Action => START
      case Field => At(1, [[0x02]])
      case ULen => At(2, HEADER)
      case Username => AdminForm.Form(Inside, 2, HEADER, username[..read], remaining)
      case Attribute => At(3, HEADER + [username[..ulen]])
      case ValueLen => At(4, HEADER + [username[..ulen], [attr]])
      case Value => AdminForm.Form(Inside, 4, HEADER + [username[..ulen], [attr]], value[..read], remaining)
      case Done => AdminForm.Form(Finished, 5, HEADER + [username[..ulen], [attr], value[..valuelen]], [], 0)
      case ErrorAction => Fail(START)
      case ErrorField => Fail(At(1, [[0x02]]))
      case ErrorULen => Fail(At(2, HEADER))
      case ErrorAttribute => Fail(At(3, HEADER + [username[..ulen]]))
      case ErrorValueLen => Fail(At(4, HEADER + [username[..ulen], [attr]]))
    }

    /** admin_edit_parser_init. */
    constructor ()
      ensures Valid() && fresh(username) && fresh(value)
      ensures Form() == START
    {
      state := Action;
      ulen, attr, valuelen, remaining, read, status := 0, 0, 0, 0, 0, 0;
      username := new byte[256](_ => 0);
      value := new byte[256](_ => 0);
    }

    /** admin_edit_parser_feed. */
    method FeedByte(b: byte)
      requires Valid()
      modifies this, username, value
      ensures Valid() && Form() == Feed(EDIT, old(Form()), b)
    {
      match state {
        case Action => FeedAction(b);
        case Field => FeedField(b);
        case ULen => FeedULen(b);
        case Username => FeedUsername(b);
        case Attribute => FeedAttribute(b);
        case ValueLen => FeedValueLen(b);
        case Value => FeedValue(b);
        case _ =>
      }
    }

    /** edit_action. */
    method FeedAction(b: byte)
      requires Valid() && state.Action?
      modifies this
      ensures Valid() && Form() == Feed(EDIT, old(Form()), b)
    {
      if b == 0x02 {
        state := Field;
      } else {
        state, status := ErrorAction, 0x01;
      }
    }

    /** edit_field. */
    method FeedField(b: byte)
      requires Valid() && state.Field?
      modifies this
      ensures Valid() && Form() == Feed(EDIT, old(Form()), b)
    {
      if b == 0x00 {
        state := ULen;
      } else {
        state, status := ErrorField, 0x02;
      }
    }

    /** The length of the name. */
    method FeedULen(b: byte)
      requires Valid() && state.ULen?
      modifies this
      ensures Valid() && Form() == Feed(EDIT, old(Form()), b)
    {
      if b <= 0 {
        state, status := ErrorULen, 0x03;
      } else {
        remaining, read := b, 0;
        ulen := b;
        state := Username;
      }
    }

    /** edit_username. */
    method FeedUsername(b: byte)
      requires Valid() && state.Username?
      modifies this, username
      ensures Valid() && Form() == Feed(EDIT, old(Form()), b)
    {
      username[read] := b;
      assert username[..read + 1] == old(username[..read]) + [b];
      read := read + 1;
      if read >= remaining {
        username[read] := 0;
        assert username[..read] == old(username[..read]) + [b];
        state := Attribute;
      }
    }

    /** attribute. */
    method FeedAttribute(b: byte)
      requires Valid() && state.Attribute?
      modifies this
      ensures Valid() && Form() == Feed(EDIT, old(Form()), b)
    {
      if b == USERNAME_ATTRIBUTE || b == PASSWORD_ATTRIBUTE {
        attr := b;
        state := ValueLen;
      } else {
        state, status := ErrorAttribute, 0x04;
      }
    }

    /** The length of the value. */
    method FeedValueLen(b: byte)
      requires Valid() && state.ValueLen?
      modifies this
      ensures Valid() && Form() == Feed(EDIT, old(Form()), b)
    {
      if b <= 0 {
        state, status := ErrorValueLen, 0x05;
      } else {
        remaining, read := b, 0;
        valuelen := b;
        state := Value;
      }
    }

    /** edit_value. */
    method FeedValue(b: byte)
      requires Valid() && state.Value?
      modifies this, value
      ensures Valid() && Form() == Feed(EDIT, old(Form()), b)
    {
      value[read] := b;
      assert value[..read + 1] == old(value[..read]) + [b];
      read := read + 1;
      if read >= remaining {
        value[read] := 0;
        assert value[..read] == old(value[..read]) + [b];
        state, status := Done, 0x00;
      }
    }

    /** admin_edit_is_done. */
    method IsOver() returns (over: bool)
      requires Valid()
      ensures over == IsDone(Form())
    {
      over := state == Done || state == ErrorAction || state == ErrorField || state == ErrorULen
              || state == ErrorAttribute || state == ErrorValueLen;
    }

    /** admin_edit_consume. */
    method ConsumeBuffer(buff: Buffer)
      requires Valid() && buff.Valid() && buff.data != username && buff.data != value
      modifies this, username, value, buff, buff.data
      ensures Valid() && buff.Valid()
      ensures Consumed(Feeder(EDIT), IsDone, old(Form()), old(buff.View()), Form(), buff.View())
    {
      hide Progress, Consumed, Feed, Valid, Form, IsDone;
      ghost var feed, v, p := Feeder(EDIT), buff.View(), Form();
      ProgressStart(feed, IsDone, p, v);
      var more := buff.CanRead();
      while more
        invariant Valid() && buff.Valid() && more == Fifo.CanRead(buff.View())
        invariant Progress(feed, IsDone, p, v, Form(), buff.View())
        decreases |buff.View().contents|
      {
        ghost var q, w := Form(), buff.View();
        ProgressStep(feed, IsDone, p, v, q, w);
        var c := buff.Read();
        FeedByte(c);
        assert Form() == feed(q, w.contents[0]) && buff.View() == Fifo.Take(w, 1);
        var over := IsOver();
        if over {
          return;
        }
        more := buff.CanRead();
      }
      ProgressEnd(feed, IsDone, p, v, Form(), buff.View());
    }
  }
}
