/** The two-level dispatch table: exact (opType, opCommand) pair first, then the opCommand wildcard. */
module Dispatch {
  import opened Wrappers
  import opened Text
  import opened Encoding
  import Utf8

  datatype Entry<+H> = Entry(opType: string, opCommand: string, handler: H)

  function EmptyBytes32(): string { Encode(Zeros(32)) }

  function Normalize(h: string): string {
    if h == "" then EmptyBytes32()
    else if Lower(h)[..if |h| < 2 then |h| else 2] == "0x" then Lower(h)
    else "0x" + Lower(h)
  }

  /** A registration as the application writes it. */
  datatype Registration<+H> = Registration(opType: JsString, opCommand: JsString, handler: H)

  /** A string that fits into bytes32. */
  predicate IsName(s: JsString) { |Utf8.Encode(s)| <= 32 }

  function Id(name: JsString): string
    requires IsName(name)
  {
    Bytes32(Utf8.Encode(name)).value
  }

  function EntryOf<H>(r: Registration<H>): Entry<H>
    requires IsName(r.opType) && IsName(r.opCommand)
  {
    Entry(Id(r.opType), Id(r.opCommand), r.handler)
  }

  // ---- The source's own form ----------------------------------------------------------------------

  /** The first handler registered for exactly this pair. */
  function First<H>(entries: seq<Entry<H>>, t: string, c: string): Option<H> {
    if entries == [] then None
    else if entries[0].opType == t && entries[0].opCommand == c then Some(entries[0].handler)
    else First(entries[1..], t, c)
  }

  function Find<H>(entries: seq<Entry<H>>, opType: string, opCommand: string): Option<H> {
    var exact := First(entries, Normalize(opType), Normalize(opCommand));
    if exact.Some? then exact else First(entries, Normalize(opType), EmptyBytes32())
  }

  class Framework<H> {
    var handlers: seq<Entry<H>>

    constructor ()
      ensures handlers == []
    {
      handlers := [];
    }

    /** Refuses identifiers longer than 32 bytes; the table is then unchanged. */
    method Handle(opType: JsString, opCommand: JsString, handler: H) returns (ok: bool)
      modifies this
      ensures ok <==> IsName(opType) && IsName(opCommand)
      ensures handlers == if ok then old(handlers) + [EntryOf(Registration(opType, opCommand, handler))]
                          else old(handlers)
    {
      var t := StringToBytes32Hex(opType);
      if t.Failure? { return false; }
      var c := StringToBytes32Hex(opCommand);
      if c.Failure? { return false; }
      handlers := handlers + [Entry(t.value, c.value, handler)];
      return true;
    }

    method Lookup(opType: string, opCommand: string) returns (r: Option<H>)
      ensures r == Find(handlers, opType, opCommand)
    {
      var t := Normalize(opType);
      var c := Normalize(opCommand);
      for i := 0 to |handlers|
        invariant First(handlers, t, c) == First(handlers[i..], t, c)
      {
        if handlers[i].opType == t && handlers[i].opCommand == c { return Some(handlers[i].handler); }
      }
      for i := 0 to |handlers|
        invariant First(handlers, t, EmptyBytes32()) == First(handlers[i..], t, EmptyBytes32())
      {
        if handlers[i].opType == t && handlers[i].opCommand == EmptyBytes32() { return Some(handlers[i].handler); }
      }
      return None;
    }
  }

  // ---- Dispatch by name ---------------------------------------------------------------------------

  ghost predicate AllNames<H>(regs: seq<Registration<H>>) {
    forall i :: 0 <= i < |regs| ==> IsName(regs[i].opType) && IsName(regs[i].opCommand)
  }

  /** The table after registering the list in order. */
  function Table<H>(regs: seq<Registration<H>>): seq<Entry<H>>
    requires AllNames(regs)
  {
    if regs == [] then [] else [EntryOf(regs[0])] + Table(regs[1..])
  }

  /** The names are the same on the wire; without lone surrogates and trailing U+0000s, they are the same. */
  predicate SameName(a: JsString, b: JsString) { Canonical(a) == Canonical(b) }

  predicate Names<H>(r: Registration<H>, t: JsString, c: JsString) { SameName(r.opType, t) && SameName(r.opCommand, c) }

  function FirstNamed<H>(regs: seq<Registration<H>>, t: JsString, c: JsString): Option<H> {
    if regs == [] then None
    else if Names(regs[0], t, c) then Some(regs[0].handler)
    else FirstNamed(regs[1..], t, c)
  }

  /** A wire spelling of a name: its 64 hex digits in any letter case, with or without prefix, or "" for none. */
  predicate Spells(w: string, name: JsString)
    requires IsName(name)
  {
    (w == "" && SameName(name, [])) || Lower(WithoutHexPrefix(w)) == Digits(Pad32(Utf8.Encode(name)))
  }

  lemma PrefixedNormalizes(w: string)
    requires HasHexPrefix(w)
    ensures Normalize(w) == "0x" + Lower(WithoutHexPrefix(w))
  {
    LowerOfSlice(w, 2);
    var l := Lower(w);
    assert l[..2] == "0x";
    assert l == l[..2] + l[2..];
  }

  lemma UnprefixedNormalizes(w: string)
    requires |w| >= 2 && !HasHexPrefix(w)
    ensures Normalize(w) == "0x" + Lower(WithoutHexPrefix(w))
  {
    var l := Lower(w);
    assert l[..2] == [l[0], l[1]];
    assert l[0] == LowerChar(w[0]) && l[1] == LowerChar(w[1]);
  }

  lemma EmptyId()
    ensures IsName([]) && Id([]) == EmptyBytes32()
  {
    assert Utf8.Encode([]) == [];
    assert Pad32([]) == Zeros(32);
  }

  lemma SameNameSameId(a: JsString, b: JsString)
    requires IsName(a) && IsName(b)
    ensures Id(a) == Id(b) <==> SameName(a, b)
  {
    Bytes32OfStrings(a, b);
  }

  /** Names without lone surrogates and trailing U+0000s are told apart whenever they differ. */
  lemma ProperNamesDiffer(a: JsString, b: JsString)
    requires Utf8.AllScalar(a) && (a == [] || a[|a| - 1] != 0)
    requires Utf8.AllScalar(b) && (b == [] || b[|b| - 1] != 0)
    ensures SameName(a, b) <==> a == b
  {
    WithoutNulsShortens(a);
    WithoutNulsShortens(b);
    assert Utf8.Scrubbed(a) == a && Utf8.Scrubbed(b) == b;
  }

  lemma SpellingNormalizes(w: string, name: JsString)
    requires IsName(name) && Spells(w, name)
    ensures Normalize(w) == Id(name)
  {
    if w == "" && SameName(name, []) {
      EmptyId();
      SameNameSameId(name, []);
    } else if HasHexPrefix(w) {
      PrefixedNormalizes(w);
    } else {
      assert |WithoutHexPrefix(w)| == |Digits(Pad32(Utf8.Encode(name)))| == 64;
      UnprefixedNormalizes(w);
    }
  }

  lemma {:induction false} FirstByName<H>(regs: seq<Registration<H>>, t: JsString, c: JsString)
    requires AllNames(regs) && IsName(t) && IsName(c)
    ensures First(Table(regs), Id(t), Id(c)) == FirstNamed(regs, t, c)
  {
    if regs == [] {
    } else {
      FirstByName(regs[1..], t, c);
      SameNameSameId(regs[0].opType, t);
      SameNameSameId(regs[0].opCommand, c);
      assert Table(regs)[1..] == Table(regs[1..]);
    }
  }

  /**
   For any registration list and any spelling of the request, the handler found is the first one registered
   for the pair of names, else the first one registered for the op-type with the empty command.
   */
  lemma DispatchByName<H>(regs: seq<Registration<H>>, tw: string, cw: string, t: JsString, c: JsString)
    requires AllNames(regs) && IsName(t) && IsName(c) && Spells(tw, t) && Spells(cw, c)
    ensures Find(Table(regs), tw, cw) ==
            if FirstNamed(regs, t, c).Some? then FirstNamed(regs, t, c) else FirstNamed(regs, t, [])
  {
    SpellingNormalizes(tw, t);
    SpellingNormalizes(cw, c);
    EmptyId();
    FirstByName(regs, t, c);
    FirstByName(regs, t, []);
  }

  /** FirstNamed is what its name says. */
  lemma {:induction false} FirstNamedIsFirst<H>(regs: seq<Registration<H>>, t: JsString, c: JsString)
    ensures match FirstNamed(regs, t, c)
            case None => forall i :: 0 <= i < |regs| ==> !Names(regs[i], t, c)
            case Some(h) =>
              exists i :: 0 <= i < |regs| && Names(regs[i], t, c) && regs[i].handler == h
                          && forall j :: 0 <= j < i ==> !Names(regs[j], t, c)
  {
    if regs == [] {
    } else if Names(regs[0], t, c) {
    } else {
      var rest := regs[1..];
      FirstNamedIsFirst(rest, t, c);
      if FirstNamed(rest, t, c).Some? {
        var i :| 0 <= i < |rest| && Names(rest[i], t, c) && rest[i].handler == FirstNamed(rest, t, c).value
                 && forall j :: 0 <= j < i ==> !Names(rest[j], t, c);
        assert Names(regs[i + 1], t, c);
        forall j | 0 <= j < i + 1 ensures !Names(regs[j], t, c) {
          if j > 0 { assert regs[j] == rest[j - 1]; }
        }
      } else {
        forall i | 0 <= i < |regs| ensures !Names(regs[i], t, c) {
          if i > 0 { assert regs[i] == rest[i - 1]; }
        }
      }
    }
  }

  /** When no pair is registered twice, each registration is found under its own names: none shadows another. */
  lemma NoneShadowed<H>(regs: seq<Registration<H>>, k: nat, tw: string, cw: string)
    requires AllNames(regs) && k < |regs|
    requires forall i, j :: 0 <= i < j < |regs| ==> !Names(regs[i], regs[j].opType, regs[j].opCommand)
    requires Spells(tw, regs[k].opType) && Spells(cw, regs[k].opCommand)
    ensures Find(Table(regs), tw, cw) == Some(regs[k].handler)
  {
    var t, c := regs[k].opType, regs[k].opCommand;
    DispatchByName(regs, tw, cw, t, c);
    FirstNamedIsFirst(regs, t, c);
    assert Names(regs[k], t, c);
    var i :| 0 <= i < |regs| && Names(regs[i], t, c) && regs[i].handler == FirstNamed(regs, t, c).value
             && forall j :: 0 <= j < i ==> !Names(regs[j], t, c);
  }

  lemma AllNamesOfTail<H>(regs: seq<Registration<H>>)
    requires AllNames(regs) && regs != []
    ensures AllNames(regs[1..])
  {
  }

  lemma {:induction false} TableOfMore<H>(regs: seq<Registration<H>>, r: Registration<H>)
    requires AllNames(regs) && AllNames(regs + [r]) && IsName(r.opType) && IsName(r.opCommand)
    ensures Table(regs + [r]) == Table(regs) + [EntryOf(r)]
  {
    if regs == [] {
      assert (regs + [r])[1..] == [];
    } else {
      var more := regs + [r];
      assert more[1..] == regs[1..] + [r] && more[0] == regs[0];
      AllNamesOfTail(more);
      AllNamesOfTail(regs);
      TableOfMore(regs[1..], r);
      assert Table(more) == [EntryOf(regs[0])] + Table(more[1..]);
      assert [EntryOf(regs[0])] + Table(regs[1..]) + [EntryOf(r)]
          == [EntryOf(regs[0])] + (Table(regs[1..]) + [EntryOf(r)]);
    }
  }

  /** Registering through `Handle` builds the table: the step for one more registration. */
  lemma TableSnoc<H>(regs: seq<Registration<H>>, r: Registration<H>)
    requires AllNames(regs) && IsName(r.opType) && IsName(r.opCommand)
    ensures AllNames(regs + [r])
    ensures Table(regs + [r]) == Table(regs) + [EntryOf(r)]
  {
    forall i | 0 <= i < |regs + [r]|
      ensures IsName((regs + [r])[i].opType) && IsName((regs + [r])[i].opCommand)
    {
      assert (regs + [r])[i] == if i < |regs| then regs[i] else r;
    }
    TableOfMore(regs, r);
  }
}
