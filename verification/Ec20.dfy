// The receive handlers of the modem application: matching commands and results in segmented replies.
module Ec20 {
  import opened Memory
  import opened ReplySearch

  const RECV_BUFF_SIZE := 64
  const CMD_RUNNING := "AT+QPING=1,\"www.baidu.com\""

  datatype Handler = CmdSelect | Ati | InitDone | General | Running

  datatype Command = Command(name: string, result: string, handler: Handler)

  // The command table. A result that is a null pointer there is never searched for; it is empty here.
  const CMD: seq<Command> := [
    Command("ati;+csub", "OK", Ati),
    Command("\r\n+QIND: SMS DONE", "", InitDone),
    Command("AT+CPIN?", "READY", General),
    Command("AT+CREG?", "OK", General),
    Command("AT+CGREG?", "OK", General),
    Command("AT+QICSGP=1", "OK", General),
    Command("AT+QIACT=1", "OK", General),
    Command(CMD_RUNNING, "OK", Running)
  ]

  lemma TableFits(k: nat)
    requires k < |CMD|
    ensures 0 < |CMD[k].name| <= |CMD_RUNNING| <= RECV_BUFF_SIZE && |CMD[k].result| <= RECV_BUFF_SIZE
  {
  }

  // ----- Buffers -----

  // The buffer holds s, then NULs to its end.
  ghost predicate Padded(buffer: string, s: string) {
    |s| < |buffer| && s <= buffer && forall i :: |s| <= i < |buffer| ==> buffer[i] == NUL
  }

  lemma PaddedCString(buffer: string, s: string)
    requires Padded(buffer, s) && NulFree(s)
    ensures CString(buffer) == s
  {
    CStringOf(s, buffer);
  }

  lemma PaddedMore(buffer: string, s: string, t: string)
    requires Padded(buffer, s) && |s| + |t| < |buffer|
    ensures Padded(Overlaid(buffer, |s|, t), s + t)
  {
  }

  // The first index in a table whose name occurs, if any.
  ghost predicate FirstFound(text: string, k: int) {
    && -1 <= k < |CMD|
    && (k >= 0 ==> Occurs(text, CMD[k].name))
    && (forall i :: 0 <= i < (if k < 0 then |CMD| else k) ==> !Occurs(text, CMD[i].name))
  }

  ghost predicate NoneFound(text: string) { FirstFound(text, -1) }

  // Commands are found in the whole reply so far by looking at a segment and what was carried.
  lemma FoundInCarry(seen: string, segment: string, k: int)
    requires |seen| >= |CMD_RUNNING| && NoneFound(seen)
    ensures FirstFound(seen + segment, k) <==> FirstFound(Tail(seen, |CMD_RUNNING|) + segment, k)
  {
    hide Occurs;
    forall i | 0 <= i < |CMD|
      ensures Occurs(seen + segment, CMD[i].name) <==> Occurs(Tail(seen, |CMD_RUNNING|) + segment, CMD[i].name)
    {
      TableFits(i);
      CarryIsEnough(seen, segment, CMD[i].name, |CMD_RUNNING|);
    }
  }

  method Strstr(buffer: array<char>, needle: string, ghost text: string) returns (found: bool)
    requires Padded(buffer[..], text) && NulFree(text)
    ensures found == Occurs(text, needle)
  {
    PaddedCString(buffer[..], text);
    var s := CString(buffer[..]);
    found := exists i :: 0 <= i <= |s| && At(s, i, needle);
  }

  // A reply as it is delivered.
  predicate CutUp(segments: seq<string>) {
    && |segments| > 0 && |segments[|segments| - 1]| < RECV_BUFF_SIZE
    && (forall i :: 0 <= i < |segments| - 1 ==> |segments[i]| == RECV_BUFF_SIZE)
    && (forall i :: 0 <= i < |segments| ==> NulFree(segments[i]))
  }

  function Whole(segments: seq<string>): string {
    if segments == [] then "" else Whole(segments[..|segments| - 1]) + segments[|segments| - 1]
  }

  lemma WholeNext(segments: seq<string>, i: nat)
    requires i < |segments|
    ensures Whole(segments[..i + 1]) == Whole(segments[..i]) + segments[i]
  {
    assert segments[..i + 1][..i] == segments[..i];
  }

  class Ec20App {
    const recv_buf: array<char>
    var result_buff: array?<char>
    var result_flag: int
    var ec20_recvdata: Handler
    var cmd_index: nat
    var Appli_state: nat
    var AppliEvent: seq<nat>         // the states put in the event queue
    ghost var seen: string           // the segments of the current reply handled so far
    ghost var lossless: bool         // no allocation has failed during it

    ghost predicate Shape()
      reads this
    {
      && recv_buf.Length == RECV_BUFF_SIZE + 1 && result_buff != recv_buf && cmd_index < |CMD|
      && (seen == [] || |seen| >= RECV_BUFF_SIZE) && NulFree(seen) && (seen == [] ==> result_buff == null)
    }

    // result_buff carries the last n characters seen.
    ghost predicate Carries(n: nat)
      reads this, result_buff
    {
      result_buff != null ==>
        n <= |seen| && result_buff.Length == n + RECV_BUFF_SIZE + 1 && Padded(result_buff[..], Tail(seen, n))
    }

    // Selecting a command.
    ghost predicate SelectOk()
      reads this, result_buff
    {
      && Shape() && ec20_recvdata == CmdSelect && result_flag == 0 && Carries(|CMD_RUNNING|)
      && (lossless ==> NoneFound(seen) && (seen != [] ==> result_buff != null))
    }

    // Looking for the result of the command selected.
    ghost predicate GeneralOk()
      reads this, result_buff
    {
      && Shape() && ec20_recvdata == General && CMD[cmd_index].handler == General
      && var result := CMD[cmd_index].result;
      && (result_flag == 0 || (result_flag == 1 && Occurs(seen, result)))
      && (result_buff != null ==> result_buff.Length == |result| + RECV_BUFF_SIZE + 1)
      && (result_flag == 0 ==> Carries(|result|))
      && (lossless && result_flag == 0 ==> !Occurs(seen, result) && (seen != [] ==> result_buff != null))
    }

    // A segment has been received into recv_buf.
    ghost predicate Received(segment: string)
      reads this, recv_buf
    {
      && |segment| <= RECV_BUFF_SIZE && NulFree(segment)
      && recv_buf.Length == RECV_BUFF_SIZE + 1 && Padded(recv_buf[..], segment)
    }

    // new_EC20_Application
    constructor ()
      ensures SelectOk() && fresh(recv_buf) && seen == [] && lossless && Appli_state == 0 && AppliEvent == []
    {
      recv_buf := new char[RECV_BUFF_SIZE + 1](_ => NUL);
      result_buff, result_flag, ec20_recvdata, cmd_index := null, 0, CmdSelect, 0;
      Appli_state, AppliEvent := 0, [];
      seen, lossless := [], true;
      new;
      NothingInNothing();
    }

    // The memset and memcpy that keep the end of a full segment.
    method CarryOver(buffer: array<char>, n: nat, ghost segment: string)
      requires Received(segment) && |segment| == RECV_BUFF_SIZE && n <= RECV_BUFF_SIZE
      requires buffer.Length == n + RECV_BUFF_SIZE + 1 && buffer != recv_buf
      modifies buffer
      ensures Padded(buffer[..], Tail(segment, n))
    {
      forall i | 0 <= i < buffer.Length { buffer[i] := NUL; }
      assert Padded(buffer[..], []);
      PaddedMore(buffer[..], [], recv_buf[RECV_BUFF_SIZE - n..RECV_BUFF_SIZE]);
      assert [] + Tail(segment, n) == Tail(segment, n) == recv_buf[RECV_BUFF_SIZE - n..RECV_BUFF_SIZE - n + n];
      Memcpy(buffer, 0, recv_buf, RECV_BUFF_SIZE - n, n);
    }

    // The memcpy that puts a segment after what is carried.
    method AddSegment(buffer: array<char>, n: nat, size: nat, ghost carried: string, ghost segment: string)
      requires Received(segment) && size == |segment| && |carried| == n
      requires buffer.Length == n + RECV_BUFF_SIZE + 1 && buffer != recv_buf && Padded(buffer[..], carried)
      modifies buffer
      ensures Padded(buffer[..], carried + segment)
    {
      PaddedMore(buffer[..], carried, segment);
      assert recv_buf[0..0 + size] == segment;
      Memcpy(buffer, n, recv_buf, 0, size);
    }

    // ec20_find_cmd
    method FindCmd(buffer: array<char>, ghost text: string) returns (ret: int)
      requires Padded(buffer[..], text) && NulFree(text)
      modifies this`ec20_recvdata, this`cmd_index
      ensures ret == 0 || ret == -1
      ensures ret == 0 ==> cmd_index < |CMD| && FirstFound(text, cmd_index) && ec20_recvdata == CMD[cmd_index].handler
      ensures ret == -1 ==> NoneFound(text) && cmd_index == old(cmd_index) && ec20_recvdata == old(ec20_recvdata)
    {
      hide Padded, Occurs;
      var i := 0;
      while i < |CMD|
        invariant i <= |CMD| && forall j :: 0 <= j < i ==> !Occurs(text, CMD[j].name)
        invariant cmd_index == old(cmd_index) && ec20_recvdata == old(ec20_recvdata)
      {
        var found := Strstr(buffer, CMD[i].name, text);
        if found {
          ec20_recvdata := CMD[i].handler;
          cmd_index := i;
          return 0;
        }
        i := i + 1;
      }
      ret := -1;
    }

    // One segment searched for a string, with what is carried from before if anything is.
    method SearchSegment(needle: string, n: nat, size: nat, ghost segment: string) returns (found: bool)
      requires Shape() && Carries(n) && Received(segment) && size == |segment| && |needle| <= n <= RECV_BUFF_SIZE
      modifies result_buff
      ensures found ==> Occurs(seen + segment, needle)
      ensures result_buff != null || seen == [] ==> !Occurs(seen, needle) ==>
        (found <==> Occurs(seen + segment, needle))
      ensures result_buff != null ==> result_buff.Length == n + RECV_BUFF_SIZE + 1
    {
      hide Padded, Occurs;
      GrowsOccurs(seen, segment, needle);
      if result_buff == null {
        found := Strstr(recv_buf, needle, segment);
        assert seen == [] ==> seen + segment == segment;
      } else {
        AddSegment(result_buff, n, size, Tail(seen, n), segment);
        found := Strstr(result_buff, needle, Tail(seen, n) + segment);
        assert (seen + segment)[|seen| - n..] == Tail(seen, n) + segment;
        PartOccurs(seen + segment, |seen| - n, needle);
        if !Occurs(seen, needle) { CarryIsEnough(seen, segment, needle, n); }
      }
    }

    // The end of a full segment is kept, in a new buffer if there is none.
    method KeepEnd(n: nat, mallocOk: bool, ghost segment: string)
      requires Shape() && Received(segment) && |segment| == RECV_BUFF_SIZE && n <= RECV_BUFF_SIZE
      requires result_buff != null ==> result_buff.Length == n + RECV_BUFF_SIZE + 1
      modifies this`result_buff, this`seen, this`lossless, result_buff
      ensures Shape() && seen == old(seen) + segment && Carries(n)
      ensures (result_buff == old(result_buff) || fresh(result_buff))
      ensures lossless == (old(lossless) && result_buff != null)
      ensures (old(result_buff) != null || mallocOk ==> result_buff != null)
    {
      hide Padded;
      if result_buff == null && mallocOk { result_buff := new char[n + RECV_BUFF_SIZE + 1]; }
      if result_buff != null {
        assert Tail(seen + segment, n) == Tail(segment, n);
        CarryOver(result_buff, n, segment);
      }
      lossless := lossless && result_buff != null;
      seen := seen + segment;
    }

    // ec20_recv_general. mallocOk: an allocation would succeed; moved: the next state is asked for,
    // rather than the same one again. It is if and only if the result occurs in the whole reply,
    // also across segments; if an allocation has failed, only if.
    method RecvGeneral(size: nat, mallocOk: bool, ghost segment: string) returns (ghost moved: bool)
      requires GeneralOk() && Received(segment) && size == |segment|
      modifies this, recv_buf, result_buff
      ensures size == RECV_BUFF_SIZE ==> GeneralOk() && seen == old(seen) + segment && AppliEvent == old(AppliEvent)
      ensures size == RECV_BUFF_SIZE ==> cmd_index == old(cmd_index) && (old(lossless) && mallocOk ==> lossless)
      ensures size < RECV_BUFF_SIZE ==> SelectOk() && seen == [] && lossless
      ensures size < RECV_BUFF_SIZE ==> AppliEvent == old(AppliEvent) + [if moved then Appli_state + 1 else Appli_state]
      ensures size < RECV_BUFF_SIZE && moved ==> Occurs(old(seen) + segment, CMD[old(cmd_index)].result)
      ensures size < RECV_BUFF_SIZE && old(lossless) ==>
        (moved <==> Occurs(old(seen) + segment, CMD[old(cmd_index)].result))
      ensures Appli_state == old(Appli_state)
      ensures (result_buff == null || result_buff == old(result_buff) || fresh(result_buff))
    {
      hide Padded, Occurs, CMD;
      TableFits(cmd_index);
      var result := CMD[cmd_index].result;
      moved := false;
      GrowsOccurs(seen, segment, result);
      if size == RECV_BUFF_SIZE {
        if result_buff == null || result_flag == 0 {
          var found := SearchSegment(result, |result|, size, segment);
          if found {
            result_flag := 1;
            seen := seen + segment;
          } else {
            KeepEnd(|result|, mallocOk, segment);
          }
        } else {
          seen := seen + segment;
        }
        ec20_recvdata := General;
      } else {
        if result_flag == 0 {
          var found := SearchSegment(result, |result|, size, segment);
          if found { result_flag := 1; }
        }
        result_buff := null;
        seen, lossless := [], true;
        forall i | 0 <= i < recv_buf.Length { recv_buf[i] := NUL; }
        ec20_recvdata := CmdSelect;
        moved := result_flag == 1;
        if result_flag == 1 {
          result_flag := 0;
          AppliEvent := AppliEvent + [Appli_state + 1];
        } else {
          result_flag := 0;
          AppliEvent := AppliEvent + [Appli_state];
        }
        NothingInNothing();
      }
    }

    // The driver fills recv_buf, cleared after the segment before.
    method Deliver(segment: string)
      requires |segment| <= RECV_BUFF_SIZE && NulFree(segment) && recv_buf.Length == RECV_BUFF_SIZE + 1
      modifies recv_buf
      ensures Received(segment)
    {
      forall i | 0 <= i < recv_buf.Length { recv_buf[i] := if i < |segment| then segment[i] else NUL; }
    }

    // A whole reply: full segments, then a shorter one. With every allocation made, the next state is
    // asked for exactly when the expected result occurs in the reply, wherever it was cut.
    method GeneralReply(segments: seq<string>) returns (ghost moved: bool)
      requires GeneralOk() && seen == [] && lossless && CutUp(segments)
      modifies this, recv_buf
      ensures moved <==> Occurs(Whole(segments), CMD[old(cmd_index)].result)
      ensures SelectOk() && AppliEvent == old(AppliEvent) + [if moved then Appli_state + 1 else Appli_state]
    {
      hide Padded, Occurs, CMD;
      var i := 0;
      moved := false;
      while i < |segments| - 1
        invariant 0 <= i < |segments| && GeneralOk() && lossless && seen == Whole(segments[..i])
        invariant cmd_index == old(cmd_index) && AppliEvent == old(AppliEvent) && Appli_state == old(Appli_state)
        invariant result_buff == null || fresh(result_buff)
      {
        WholeNext(segments, i);
        Deliver(segments[i]);
        ghost var none := RecvGeneral(RECV_BUFF_SIZE, true, segments[i]);
        i := i + 1;
      }
      WholeNext(segments, i);
      assert segments[..i + 1] == segments;
      Deliver(segments[i]);
      moved := RecvGeneral(|segments[i]|, true, segments[i]);
    }

    // One segment searched for a command, with what is carried from before if anything is.
    method SearchCommands(size: nat, ghost segment: string) returns (ret: int)
      requires Shape() && Carries(|CMD_RUNNING|) && Received(segment) && size == |segment|
      modifies this`ec20_recvdata, this`cmd_index, result_buff
      ensures ret == 0 || ret == -1
      ensures ret == 0 ==>
        cmd_index < |CMD| && Occurs(seen + segment, CMD[cmd_index].name) && ec20_recvdata == CMD[cmd_index].handler
      ensures ret == -1 ==> cmd_index == old(cmd_index) && ec20_recvdata == old(ec20_recvdata)
      ensures (result_buff != null || seen == []) && NoneFound(seen) ==>
        FirstFound(seen + segment, if ret == 0 then cmd_index else -1)
      ensures result_buff != null ==> result_buff.Length == |CMD_RUNNING| + RECV_BUFF_SIZE + 1
    {
      hide Padded, Occurs, CMD, FirstFound;
      var n := |CMD_RUNNING|;
      if result_buff == null {
        ret := FindCmd(recv_buf, segment);
        assert seen == [] ==> seen + segment == segment;
        if ret == 0 { FoundOccurs(segment, cmd_index); GrowsOccurs(seen, segment, CMD[cmd_index].name); }
      } else {
        ghost var text := Tail(seen, n) + segment;
        AddSegment(result_buff, n, size, Tail(seen, n), segment);
        ret := FindCmd(result_buff, text);
        assert (seen + segment)[|seen| - n..] == text;
        if ret == 0 { FoundOccurs(text, cmd_index); PartOccurs(seen + segment, |seen| - n, CMD[cmd_index].name); }
        if NoneFound(seen) { FoundInCarry(seen, segment, if ret == 0 then cmd_index else -1); }
      }
    }

    lemma FoundOccurs(text: string, k: nat)
      requires FirstFound(text, k)
      ensures k < |CMD| && Occurs(text, CMD[k].name)
    {
    }

    // ec20_recv_cmd_select. The command selected is, with every allocation made, the first of the table
    // that occurs in the reply so far, and there is one unless none occurs.
    method RecvCmdSelect(size: nat, mallocOk: bool, ghost segment: string) returns (ret: int)
      requires SelectOk() && Received(segment) && size == |segment|
      modifies this, result_buff
      ensures ret == 0 || ret == -1
      ensures old(lossless) ==> FirstFound(old(seen) + segment, if ret == 0 then cmd_index else -1)
      ensures ret == 0 ==> cmd_index < |CMD| && Occurs(old(seen) + segment, CMD[cmd_index].name)
      ensures ret == 0 ==> ec20_recvdata == CMD[cmd_index].handler && seen == [] && lossless && result_buff == null
      ensures ret == 0 && ec20_recvdata == General ==> GeneralOk()
      ensures ret == -1 ==> SelectOk() && (size < RECV_BUFF_SIZE ==> seen == [] && lossless)
      ensures ret == -1 && size == RECV_BUFF_SIZE ==>
        seen == old(seen) + segment && (old(lossless) && mallocOk ==> lossless)
      ensures AppliEvent == old(AppliEvent)
    {
      hide Padded, Occurs, CMD, FirstFound;
      NothingInNothing();
      ret := SearchCommands(size, segment);
      if size == RECV_BUFF_SIZE && ret != 0 { KeepEnd(|CMD_RUNNING|, mallocOk, segment); }
      if ret == 0 || size < RECV_BUFF_SIZE {
        result_buff := null;
        seen, lossless := [], true;
        if ret == 0 { EmptyReply(cmd_index); }
      }
    }

    // An empty reply holds the result of no command that waits for one.
    lemma EmptyReply(k: nat)
      requires k < |CMD|
      ensures CMD[k].handler == General ==> !Occurs("", CMD[k].result)
    {
    }
  }

  lemma NothingInNothing()
    ensures NoneFound("")
  {
    forall i | 0 <= i < |CMD| ensures !Occurs("", CMD[i].name) { TableFits(i); }
  }
}
