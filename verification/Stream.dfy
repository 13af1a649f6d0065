// The output stream of src/stream.c: a NUL-terminated buffer that the story writes to, that glue trims
// and that the host reads line by line.

module Streams {
  import opened Output

  // What the stream is for, without a buffer: text that was handed out, and text that waits.
  datatype Pipe = Pipe(handed: string, pending: string)

  function Strip(s: string): (r: string)
    ensures r <= s && (forall i | |r| <= i < |s| :: s[i] == '\n') && (r != [] ==> r[|r| - 1] != '\n')
  {
    if s != [] && s[|s| - 1] == '\n' then Strip(s[..|s| - 1]) else s
  }

  // The first line of s with its newline, if it has one.
  function FirstLine(s: string): (r: string)
    ensures r <= s
    ensures forall i | 0 <= i < |r| - 1 :: s[i] != '\n' && s[i] != '\0'
    ensures |r| < |s| ==> s[|r|] == '\0' || (r != [] && s[|r| - 1] == '\n')
    ensures s != [] && s[0] != '\0' ==> r != []
  {
    if s == [] || s[0] == '\0' then []
    else if s[0] == '\n' then s[..1]
    else
      var rest := FirstLine(s[1..]);
      assert [s[0]] + rest <= [s[0]] + s[1..] == s;
      [s[0]] + rest
  }

  datatype Op = Write(s: string) | Trim | Read

  function Play(p: Pipe, op: Op): Pipe {
    match op
    case Write(s) => p.(pending := p.pending + s)
    case Trim => p.(pending := Strip(p.pending))
    case Read =>
      var line := FirstLine(p.pending);
      Pipe(p.handed + line, p.pending[|line|..])
  }

  function PlayAll(p: Pipe, ops: seq<Op>): Pipe
    decreases |ops|
  {
    if ops == [] then p else Play(PlayAll(p, ops[..|ops| - 1]), ops[|ops| - 1])
  }

  lemma PlayOne(p: Pipe, ops: seq<Op>, op: Op)
    ensures PlayAll(p, ops + [op]) == Play(PlayAll(p, ops), op)
  {
    assert (ops + [op])[..|ops|] == ops;
  }

  function Contents(t: Out): Pipe
    requires t.Valid()
  {
    Pipe(t.bytes[..t.cursor], t.bytes[t.cursor..])
  }

  lemma {:induction false} TrimIsStrip(bytes: string, cursor: nat)
    requires cursor <= |bytes|
    ensures TrimFrom(bytes, cursor) == bytes[..cursor] + Strip(bytes[cursor..])
    decreases |bytes|
  {
    if cursor < |bytes| && bytes[|bytes| - 1] == '\n' {
      var init := bytes[..|bytes| - 1];
      TrimIsStrip(init, cursor);
      assert bytes[cursor..][..|bytes| - cursor - 1] == init[cursor..];
      assert init[..cursor] == bytes[..cursor];
    } else {
      assert bytes == bytes[..cursor] + bytes[cursor..];
    }
  }

  lemma {:induction false} LineIsFirst(bytes: string, i: nat)
    requires i <= |bytes|
    ensures bytes[i..LineEnd(bytes, i)] == FirstLine(bytes[i..])
    decreases |bytes| - i
  {
    if i < |bytes| && bytes[i] != '\0' && bytes[i] != '\n' {
      LineIsFirst(bytes, i + 1);
      assert bytes[i..][1..] == bytes[i + 1..];
      assert bytes[i..LineEnd(bytes, i)] == [bytes[i]] + bytes[i + 1..LineEnd(bytes, i + 1)];
    }
  }

  // The buffer with its cursor behaves like the pipe.
  lemma WriteRefines(t: Out, s: string)
    requires t.Valid()
    ensures Output.Write(t, s).Valid() && Contents(Output.Write(t, s)) == Play(Contents(t), Write(s))
  {
    assert (t.bytes + s)[t.cursor..] == t.bytes[t.cursor..] + s;
    assert (t.bytes + s)[..t.cursor] == t.bytes[..t.cursor];
  }

  lemma TrimRefines(t: Out)
    requires t.Valid()
    ensures Output.Trim(t).Valid() && Contents(Output.Trim(t)) == Play(Contents(t), Trim)
  {
    TrimIsStrip(t.bytes, t.cursor);
    var kept := Strip(t.bytes[t.cursor..]);
    assert (t.bytes[..t.cursor] + kept)[t.cursor..] == kept;
    assert (t.bytes[..t.cursor] + kept)[..t.cursor] == t.bytes[..t.cursor];
  }

  lemma ReadRefines(t: Out)
    requires t.Valid()
    ensures var (t2, line) := ReadLine(t);
      t2.Valid() && Contents(t2) == Play(Contents(t), Read) && line == FirstLine(Contents(t).pending)
  {
    if t.cursor < |t.bytes| {
      LineIsFirst(t.bytes, t.cursor);
      var j := LineEnd(t.bytes, t.cursor);
      assert t.bytes[..j] == t.bytes[..t.cursor] + t.bytes[t.cursor..j];
      assert t.bytes[j..] == t.bytes[t.cursor..][j - t.cursor..];
    }
  }

  // t is s without some of its newlines.
  ghost predicate Thins(s: string, t: string)
    decreases |s|
  {
    if s == [] then t == []
    else
      var c := s[|s| - 1];
      || (t != [] && t[|t| - 1] == c && Thins(s[..|s| - 1], t[..|t| - 1]))
      || (c == '\n' && Thins(s[..|s| - 1], t))
  }

  function Written(ops: seq<Op>): string
    decreases |ops|
  {
    if ops == [] then "" else
    var op := ops[|ops| - 1];
    Written(ops[..|ops| - 1]) + if op.Write? then op.s else ""
  }

  lemma {:induction false} ThinsMore(s: string, t: string, x: string)
    requires Thins(s, t)
    ensures Thins(s + x, t + x)
    decreases |x|
  {
    if x == [] {
      assert s + x == s && t + x == t;
    } else {
      var init := x[..|x| - 1];
      ThinsMore(s, t, init);
      assert (s + x)[..|s + x| - 1] == s + init && (t + x)[..|t + x| - 1] == t + init;
    }
  }

  lemma {:induction false} ThinsLess(s: string, t: string, n: nat)
    requires Thins(s, t) && n <= |t| && forall i | n <= i < |t| :: t[i] == '\n'
    ensures Thins(s, t[..n])
    decreases |s|
  {
    if n == |t| {
      assert t[..n] == t;
    } else {
      var c, init := s[|s| - 1], s[..|s| - 1];
      if t[|t| - 1] == c && Thins(init, t[..|t| - 1]) {
        ThinsLess(init, t[..|t| - 1], n);
        assert t[..|t| - 1][..n] == t[..n];
      } else {
        ThinsLess(init, t, n);
      }
    }
  }

  // Over any history, what was handed out and what waits make up everything that was written, in order,
  // without some of its newlines; and what was handed out stays handed out.
  lemma {:induction false} History(ops: seq<Op>)
    ensures var p := PlayAll(Pipe("", ""), ops); Thins(Written(ops), p.handed + p.pending)
    ensures ops != [] ==> PlayAll(Pipe("", ""), ops[..|ops| - 1]).handed <= PlayAll(Pipe("", ""), ops).handed
    decreases |ops|
  {
    if ops != [] {
      var before, op := ops[..|ops| - 1], ops[|ops| - 1];
      History(before);
      HistoryStep(PlayAll(Pipe("", ""), before), Written(before), op);
    }
  }

  lemma HistoryStep(p: Pipe, written: string, op: Op)
    requires Thins(written, p.handed + p.pending)
    ensures var q := Play(p, op);
      p.handed <= q.handed && Thins(written + if op.Write? then op.s else "", q.handed + q.pending)
  {
    hide Thins, Strip, FirstLine;
    assert written + "" == written;
    match op
    case Write(s) =>
      ThinsMore(written, p.handed + p.pending, s);
      assert p.handed + p.pending + s == p.handed + (p.pending + s);
    case Trim =>
      var n := |p.handed| + |Strip(p.pending)|;
      ThinsLess(written, p.handed + p.pending, n);
      assert (p.handed + p.pending)[..n] == p.handed + Strip(p.pending);
    case Read =>
      var line := FirstLine(p.pending);
      assert p.handed + p.pending == p.handed + line + p.pending[|line|..];
  }

  class Stream {
    // bytes is the allocated buffer: the text, a NUL, and what trimming left behind it.
    var bytes: seq<char>
    var length: nat
    var cursor: nat
    ghost var ops: seq<Op>

    ghost predicate Valid()
      reads this
    {
      && cursor <= length
      && (if bytes == [] then length == 0 else length < |bytes| && bytes[length] == '\0')
      && Contents(View()) == PlayAll(Pipe("", ""), ops)
    }

    ghost function View(): (t: Out)
      requires length <= |bytes|
      reads this
    {
      Out(bytes[..length], cursor)
    }

    constructor ()
      ensures Valid() && View() == Out("", 0) && ops == []
    {
      bytes, length, cursor, ops := [], 0, 0, [];
    }

    method Write(s: string)
      requires Valid()
      modifies this
      ensures Valid() && View() == Output.Write(old(View()), s) && ops == old(ops) + [Op.Write(s)]
    {
      hide PlayAll;
      WriteRefines(View(), s);
      PlayOne(Pipe("", ""), ops, Op.Write(s));
      ghost var text := bytes[..length];
      bytes := bytes[..length] + s + ['\0'];
      length := length + |s|;
      assert bytes[..length] == text + s;
      ops := ops + [Op.Write(s)];
    }

    method Trim()
      requires Valid()
      modifies this
      ensures Valid() && View() == Output.Trim(old(View())) && ops == old(ops) + [Op.Trim]
    {
      hide PlayAll, Strip, FirstLine;
      TrimRefines(View());
      PlayOne(Pipe("", ""), ops, Op.Trim);
      ghost var text := bytes[..length];
      ops := ops + [Op.Trim];
      if length == 0 || cursor >= length {
        return;
      }
      var c := length as int - 1;
      while c >= cursor && bytes[c] == '\n'
        invariant cursor as int - 1 <= c && c + 1 == length <= |text| && |bytes| == old(|bytes|) && length < |bytes|
        invariant bytes[length] == '\0' && bytes[..length] == text[..length]
        invariant cursor == old(cursor) && ops == old(ops) + [Op.Trim]
        invariant TrimFrom(text[..length], cursor) == TrimFrom(text, cursor)
        decreases c
      {
        assert text[..length][..length - 1] == text[..length - 1];
        bytes := bytes[c := '\0'];
        c := c - 1;
        length := length - 1;
      }
      assert text[..|text|] == text;
    }

    method IsEmpty() returns (empty: bool)
      requires Valid()
      ensures empty <==> Contents(View()).pending == ""
    {
      if bytes == [] || length == 0 {
        return true;
      }
      return cursor == length;
    }

    // The next line, or None when nothing waits.  The scan stops at the NUL behind the text at the latest,
    // so the cursor never has to be clamped.
    method ReadLine() returns (found: bool, line: string)
      requires Valid()
      modifies this
      ensures Valid() && View() == Output.ReadLine(old(View())).0 && line == Output.ReadLine(old(View())).1
      ensures found <==> old(Contents(View())).pending != ""
      ensures ops == old(ops) + [Read]
    {
      hide PlayAll, Strip, FirstLine;
      ReadRefines(View());
      PlayOne(Pipe("", ""), ops, Read);
      ops := ops + [Read];
      if bytes == [] || length == 0 || cursor == length {
        return false, "";
      }
      var end := ScanLine();
      found, line := true, bytes[cursor..end];
      assert bytes[cursor..end] == bytes[..length][cursor..end];
      cursor := end;
      if cursor > length {
        assert false;
      }
    }

    // Where the line at the cursor ends.
    method ScanLine() returns (end: nat)
      requires cursor < length < |bytes| && bytes[length] == '\0'
      ensures end == LineEnd(bytes[..length], cursor) <= length
    {
      ghost var text := bytes[..length];
      end := cursor;
      while bytes[end] != '\0' && bytes[end] != '\n'
        invariant cursor <= end <= length && (end < length ==> bytes[end] == text[end])
        invariant LineEnd(text, end) == LineEnd(text, cursor)
        decreases length - end
      {
        end := end + 1;
      }
      if bytes[end] == '\n' {
        end := end + 1;
      }
    }
  }
}
