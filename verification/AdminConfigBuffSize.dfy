/** src/parsers/admin_configbuffsize.c in memory: four octets filled by index, then judged as one number. */
module AdminConfigBuffSize {
  import opened Bytes
  import opened ByteMachine
  import opened BufferModule
  import opened AdminForm
  import Fifo

  datatype State = Action | Size | Done | ErrorAction | ErrorSize

  /** struct admin_configbuff_parser. */
  class SizeParser {
    var state: State
    const size: array<byte>
    var remaining: byte
    var read: byte
    var status: byte

    ghost predicate Valid()
      reads this, size
    {
      && size.Length == 4 && remaining == 4
      && (state.Action? ==> read == 0) && (state.Size? ==> read < 4) && (state.Done? || state.ErrorSize? ==> read == 4)
    }

    /** The parser as an instance of the shared machine with the layout CONFIGBUFFSIZE. */
    ghost function Form(): AdminForm.Form
      requires Valid()
      reads this, size
    {
      match state
      case Action => START
      case Size => At(1, [[0x03]]).(got := size[..read])
      case Done => AdminForm.Form(Finished, 2, [[0x03], size[..]], [], 0)
      case ErrorAction => Fail(START)
      case ErrorSize => Fail(At(1, [[0x03]]).(got := size[..3]))
    }

    /** admin_configbuff_parser_init. */
    constructor ()
      ensures Valid() && fresh(size) && Form() == START
    {
      state := Action;
      size := new byte[4](_ => 0);
      remaining, read, status := 4, 0, 0;
    }

    /** admin_configbuff_parser_feed. */
    method FeedByte(b: byte)
      requires Valid()
      modifies this, size
      ensures Valid() && Form() == Feed(CONFIGBUFFSIZE, old(Form()), b)
    {
      match state {
        case Action =>
          if b == 0x03 {
            state := Size;
            assert size[..0] == [];
          } else {
            state, status := ErrorAction, 0x01;
          }
        case Size => FeedSize(b);
        case _ =>
      }
    }

    /** The state `size`: the fourth octet completes a number, which must not be zero. */
    method FeedSize(b: byte)
      requires Valid() && state.Size?
      modifies this, size
      ensures Valid() && Form() == Feed(CONFIGBUFFSIZE, old(Form()), b)
    {
      hide FromBigEndian;
      size[read] := b;
      assert size[..read + 1] == old(size[..read]) + [b];
      read := read + 1;
      if read >= remaining {
        assert size[..] == size[..4] && size[..4][..4] == size[..4] && size[..3] == old(size[..3]);
        if FromBigEndian(size[..]) <= 0 {
          state, status := ErrorSize, 0x03;
        } else {
          state, status := Done, 0x00;
        }
      }
    }

    /** admin_configbuff_is_done. */
    method IsOver() returns (over: bool)
      requires Valid()
      ensures over == IsDone(Form())
    {
      over := state == Done || state == ErrorAction || state == ErrorSize;
    }

    /** admin_configbuff_consume. */
    method ConsumeBuffer(buff: Buffer)
      requires Valid() && buff.Valid() && buff.data != size
      modifies this, size, buff, buff.data
      ensures Valid() && buff.Valid()
      ensures Consumed(Feeder(CONFIGBUFFSIZE), IsDone, old(Form()), old(buff.View()), Form(), buff.View())
    {
      hide Progress, Consumed, Feed, Valid, Form, IsDone;
      ghost var feed, v, p := Feeder(CONFIGBUFFSIZE), buff.View(), Form();
      ProgressStart(feed, IsDone, p, v);
      var more := buff.CanRead();
      while more
        invariant Valid() && buff.Valid() && more == Fifo.CanRead(buff.View())
        invariant Progress(feed, IsDone, p, v, Form(), buff.View())
        decreases |buff.View().contents|
      {
        ghost var q, w := Form(), buff.View();
        ProgressStep(feed, IsDone, p, v, q, w);
        var c := buff.Read();
        FeedByte(c);
        assert Form() == feed(q, w.contents[0]) && buff.View() == Fifo.Take(w, 1);
        var over := IsOver();
        if over {
          return;
        }
        more := buff.CanRead();
      }
      ProgressEnd(feed, IsDone, p, v, Form(), buff.View());
    }
  }
}
