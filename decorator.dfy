/** The Decorator pattern: streams wrap other streams, each layer rewriting the
    text before handing it inward, down to a simple stream that prints it. */
module Decorators {
  import opened Common

  const DefaultPrefix := "[pref]"

  /** A stack of stream layers; the innermost is always the simple stream. */
  datatype Stream =
    | SimpleStream
    | UppercaseDecorator(inner: Stream)
    | PrefixDecorator(inner: Stream, prefix: string)

  /** A prefix decorator built without a prefix uses "[pref]". */
  function NewPrefixDecorator(inner: Stream, prefix: string := DefaultPrefix): (st: Stream)
    ensures st.PrefixDecorator? && st.inner == inner && st.prefix == prefix
  {
    PrefixDecorator(inner, prefix)
  }

  function UpperChar(c: char): (u: char)
    ensures 'a' <= c <= 'z' ==> u as int == c as int - 32
    ensures !('a' <= c <= 'z') ==> u == c
  {
    if 'a' <= c <= 'z' then (c as int - 32) as char else c
  }

  /** `toUpperCase` on ASCII letters: each lower-case letter is replaced by its
      capital, every other character is kept. */
  function ToUpper(s: string): (u: string)
    ensures |u| == |s|
    ensures forall i :: 0 <= i < |s| ==> u[i] == UpperChar(s[i])
  {
    seq(|s|, i requires 0 <= i < |s| => UpperChar(s[i]))
  }

  lemma UpperIdempotent(s: string)
    ensures ToUpper(ToUpper(s)) == ToUpper(s)
  {
  }

  lemma UpperDistributes(a: string, b: string)
    ensures ToUpper(a + b) == ToUpper(a) + ToUpper(b)
  {
  }

  /** The text the simple stream at the bottom prints for `write(s)`. */
  function Written(st: Stream, s: string): string {
    match st
    case SimpleStream => s
    case UppercaseDecorator(inner) => Written(inner, ToUpper(s))
    case PrefixDecorator(inner, prefix) => Written(inner, prefix + " " + s)
  }

  /** Whether some layer upper-cases. */
  predicate Shouts(st: Stream) {
    match st
    case SimpleStream => false
    case UppercaseDecorator(_) => true
    case PrefixDecorator(inner, _) => Shouts(inner)
  }

  /** How the stack treats text written after a given start: upper-cased if any
      layer upper-cases, otherwise unchanged. */
  function Transform(st: Stream, s: string): string {
    if Shouts(st) then ToUpper(s) else s
  }

  /** Writing `a + b` prints what writing `a` prints, then `b` as the stack
      transforms it: the layers only touch what passes through them, and the
      prefixes all end up in front. */
  lemma {:induction false} WrittenSplits(st: Stream, a: string, b: string)
    ensures Written(st, a + b) == Written(st, a) + Transform(st, b)
    decreases st
  {
    match st
    case SimpleStream =>
    case UppercaseDecorator(inner) =>
      UpperDistributes(a, b);
      WrittenSplits(inner, ToUpper(a), ToUpper(b));
      UpperIdempotent(b);
    case PrefixDecorator(inner, prefix) =>
      assert prefix + " " + (a + b) == (prefix + " " + a) + b;
      WrittenSplits(inner, prefix + " " + a, b);
  }

  /** The printed line is a header fixed by the stack, then the message as the
      stack transforms it. */
  lemma WrittenIsHeaderThenMessage(st: Stream, s: string)
    ensures Written(st, s) == Written(st, "") + Transform(st, s)
  {
    assert "" + s == s;
    WrittenSplits(st, "", s);
  }

  /** Upper-casing twice is upper-casing once. */
  lemma {:induction false} DoubleUppercase(inner: Stream, s: string)
    ensures Written(UppercaseDecorator(UppercaseDecorator(inner)), s) == Written(UppercaseDecorator(inner), s)
  {
    UpperIdempotent(s);
  }

  /** A prefix with nothing to capitalise commutes with upper-casing: the order
      in which the two decorators are stacked does not matter. */
  lemma {:induction false} PrefixCommutesWithUppercase(inner: Stream, prefix: string, s: string)
    requires ToUpper(prefix) == prefix
    ensures Written(PrefixDecorator(UppercaseDecorator(inner), prefix), s)
         == Written(UppercaseDecorator(PrefixDecorator(inner, prefix)), s)
  {
    UpperDistributes(prefix + " ", s);
    UpperDistributes(prefix, " ");
    assert ToUpper(" ") == " ";
  }

  /** The demo's stack: a prefix decorator over an upper-casing one. */
  function DemoStream(): Stream {
    NewPrefixDecorator(UppercaseDecorator(SimpleStream))
  }

  /** The demo stack's header: its prefix, upper-cased, and a space. */
  lemma DemoHeader()
    ensures Written(DemoStream(), "") == "[PREF] "
  {
    assert DefaultPrefix + " " + "" == "[pref] ";
    assert Written(DemoStream(), "") == ToUpper("[pref] ");
  }

  lemma DemoMessage()
    ensures ToUpper("hello decorators") == "HELLO DECORATORS"
  {
    assert "hello decorators" == "hello" + " decorators";
    UpperDistributes("hello", " decorators");
    assert ToUpper("hello") == "HELLO";
    assert ToUpper(" decorators") == " DECORATORS";
  }

  lemma DemoLine()
    ensures Written(DemoStream(), "hello decorators") == "[PREF] HELLO DECORATORS"
  {
    WrittenIsHeaderThenMessage(DemoStream(), "hello decorators");
    assert Shouts(DemoStream());
    DemoHeader();
    DemoMessage();
    assert "[PREF] " + "HELLO DECORATORS" == "[PREF] HELLO DECORATORS";
  }

  /** `write` on a stack: the simple stream logs the transformed line. */
  method Write(st: Stream, s: string, out: Console)
    modifies out
    ensures out.lines == old(out.lines) + [Written(st, s)]
  {
    match st
    case SimpleStream => out.Log(s);
    case UppercaseDecorator(inner) => Write(inner, ToUpper(s), out);
    case PrefixDecorator(inner, prefix) => Write(inner, prefix + " " + s, out);
  }

  method DemoDecorator(out: Console)
    modifies out
    ensures out.lines == old(out.lines) + ["Decorator pattern demo:", "[PREF] HELLO DECORATORS"]
  {
    out.Log("Decorator pattern demo:");
    Write(DemoStream(), "hello decorators", out);
    DemoLine();
  }
}
