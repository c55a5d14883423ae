/** The SOME/IP SD header: a list of entries and a list of options, with the length fields that
    are kept in step with them. */
module SdHeader {
  import opened Base

  datatype EntryType = Find | Offer | Subscribe | SubscribeAck

  datatype Entry = Entry(
    entryType: EntryType,
    index1stOptions: nat,
    num1stOptions: nat,
    serviceId: nat,
    instanceId: nat)

  datatype Protocol = Udp | Tcp | OtherProtocol

  datatype SdOption =
    | Ipv4Endpoint(address: Address, protocol: Protocol, port: nat)
    | Ipv4Multicast(address: Address, protocol: Protocol, port: nat)
    | Ieee8021Q(pcp: int, vlanId: int)
    | Ressource(maxPayload: nat, minInterval: real)
    | RealTime(deadline: real)
  {
    predicate IsConfiguration() {
      Ieee8021Q? || Ressource? || RealTime?
    }
  }

  const ENTRY_BYTES := 16
  const HEADER_BYTES := 28
  const UNCOVERED_BYTES := 8

  function OptionBytes(o: SdOption): nat {
    match o
    case Ipv4Endpoint(_, _, _) => 12
    case Ipv4Multicast(_, _, _) => 12
    case Ieee8021Q(_, _) => 8
    case Ressource(_, _) => 12
    case RealTime(_) => 8
  }

  function OptionsBytes(options: seq<SdOption>): nat {
    if options == [] then 0 else OptionBytes(options[0]) + OptionsBytes(options[1..])
  }

  datatype Header = Header(
    entries: seq<Entry>,
    options: seq<SdOption>,
    byteLength: int,
    entriesLength: int,
    optionsLength: int,
    length: int)

  const EMPTY := Header([], [], HEADER_BYTES, 0, 0, 0)

  // ------------------------------------------------------------------ one operation

  function WithEntry(h: Header, e: Entry): Header {
    h.(entries := h.entries + [e],
       byteLength := h.byteLength + ENTRY_BYTES,
       entriesLength := h.entriesLength + ENTRY_BYTES,
       length := h.byteLength + ENTRY_BYTES - UNCOVERED_BYTES)
  }

  function WithoutEntry(h: Header): Header {
    if h.entries == [] then h
    else h.(entries := h.entries[1..],
            byteLength := h.byteLength - ENTRY_BYTES,
            entriesLength := h.entriesLength - ENTRY_BYTES,
            length := h.byteLength - ENTRY_BYTES - UNCOVERED_BYTES)
  }

  function WithOption(h: Header, o: SdOption): Header {
    h.(options := h.options + [o],
       byteLength := h.byteLength + OptionBytes(o),
       optionsLength := h.optionsLength + OptionBytes(o),
       length := h.byteLength + OptionBytes(o) - UNCOVERED_BYTES)
  }

  function WithoutOption(h: Header): Header {
    if h.options == [] then h
    else h.(options := h.options[1..],
            byteLength := h.byteLength - OptionBytes(h.options[0]),
            optionsLength := h.optionsLength - OptionBytes(h.options[0]),
            length := h.byteLength - OptionBytes(h.options[0]) - UNCOVERED_BYTES)
  }

  function Front<T>(s: seq<T>): Option<T> {
    if s == [] then None else Some(s[0])
  }

  class SomeIpSDHeader {
    var entryList: seq<Entry>
    var optionList: seq<SdOption>
    var byteLength: int
    var entriesLength: int
    var optionsLength: int
    var length: int

    ghost function Abstract(): Header
      reads this
    {
      Header(entryList, optionList, byteLength, entriesLength, optionsLength, length)
    }

    constructor ()
      ensures Abstract() == EMPTY
    {
      entryList, optionList := [], [];
      byteLength, entriesLength, optionsLength, length := HEADER_BYTES, 0, 0, 0;
    }

    constructor Copy(other: SomeIpSDHeader)
      ensures Abstract() == other.Abstract()
    {
      byteLength, length := other.byteLength, other.length;
      entriesLength, optionsLength := other.entriesLength, other.optionsLength;
      entryList, optionList := [], [];
      new;
      for i := 0 to |other.entryList|
        modifies this
        invariant Abstract() == other.Abstract().(entries := other.entryList[..i], options := [])
      {
        entryList := entryList + [other.entryList[i]];
      }
      for i := 0 to |other.optionList|
        modifies this
        invariant Abstract() == other.Abstract().(options := other.optionList[..i])
      {
        optionList := optionList + [other.optionList[i]];
      }
    }

    method UpdateHeaderLength()
      modifies this`length
      ensures length == byteLength - UNCOVERED_BYTES
    {
      length := byteLength - UNCOVERED_BYTES;
    }

    method EncapEntry(e: Entry)
      modifies this
      ensures Abstract() == WithEntry(old(Abstract()), e)
    {
      byteLength := byteLength + ENTRY_BYTES;
      entriesLength := entriesLength + ENTRY_BYTES;
      UpdateHeaderLength();
      entryList := entryList + [e];
    }

    method DecapEntry() returns (entry: Option<Entry>)
      modifies this
      ensures entry == Front(old(entryList))
      ensures Abstract() == WithoutEntry(old(Abstract()))
    {
      entry := None;
      if |entryList| > 0 {
        entry := Some(entryList[0]);
        byteLength := byteLength - ENTRY_BYTES;
        entriesLength := entriesLength - ENTRY_BYTES;
        UpdateHeaderLength();
        entryList := entryList[1..];
      }
    }

    method EncapOption(o: SdOption)
      modifies this
      ensures Abstract() == WithOption(old(Abstract()), o)
    {
      byteLength := byteLength + OptionBytes(o);
      optionsLength := optionsLength + OptionBytes(o);
      UpdateHeaderLength();
      optionList := optionList + [o];
    }

    method DecapOption() returns (option: Option<SdOption>)
      modifies this
      ensures option == Front(old(optionList))
      ensures Abstract() == WithoutOption(old(Abstract()))
    {
      option := None;
      if |optionList| > 0 {
        var o := optionList[0];
        option := Some(o);
        byteLength := byteLength - OptionBytes(o);
        optionsLength := optionsLength - OptionBytes(o);
        UpdateHeaderLength();
        optionList := optionList[1..];
      }
    }

    /** The sender keeps its entry after encapsulating it and counts the options it appends. */
    method SetNum1stOptions(n: nat)
      requires |entryList| == 1
      modifies this`entryList
      ensures entryList == [old(entryList[0]).(num1stOptions := n)]
    {
      entryList := [entryList[0].(num1stOptions := n)];
    }
  }

  // ------------------------------------------------------------------ whole runs

  datatype Operation = PutEntry(entry: Entry) | TakeEntry | PutOption(option: SdOption) | TakeOption

  /** A header and what has been taken out of it so far. */
  datatype Run = Run(header: Header, entriesOut: seq<Entry>, optionsOut: seq<SdOption>)

  function Taken<T>(s: seq<T>): seq<T> {
    if s == [] then [] else [s[0]]
  }

  function Perform(r: Run, op: Operation): Run {
    match op
    case PutEntry(e) => r.(header := WithEntry(r.header, e))
    case TakeEntry => r.(header := WithoutEntry(r.header), entriesOut := r.entriesOut + Taken(r.header.entries))
    case PutOption(o) => r.(header := WithOption(r.header, o))
    case TakeOption => r.(header := WithoutOption(r.header), optionsOut := r.optionsOut + Taken(r.header.options))
  }

  function After(ops: seq<Operation>): Run {
    if ops == [] then Run(EMPTY, [], []) else Perform(After(ops[..|ops| - 1]), ops[|ops| - 1])
  }

  function EntriesIn(ops: seq<Operation>): seq<Entry> {
    if ops == [] then []
    else
      var op := ops[|ops| - 1];
      EntriesIn(ops[..|ops| - 1]) + if op.PutEntry? then [op.entry] else []
  }

  function OptionsIn(ops: seq<Operation>): seq<SdOption> {
    if ops == [] then []
    else
      var op := ops[|ops| - 1];
      OptionsIn(ops[..|ops| - 1]) + if op.PutOption? then [op.option] else []
  }

  ghost predicate LengthsAgree(h: Header) {
    && h.entriesLength == ENTRY_BYTES * |h.entries|
    && h.optionsLength == OptionsBytes(h.options)
    && h.byteLength == HEADER_BYTES + h.entriesLength + h.optionsLength
  }

  lemma {:induction false} OptionsBytesAppend(options: seq<SdOption>, o: SdOption)
    ensures OptionsBytes(options + [o]) == OptionsBytes(options) + OptionBytes(o)
  {
    if options == [] {
      assert [] + [o] == [o];
    } else {
      assert (options + [o])[1..] == options[1..] + [o];
      OptionsBytesAppend(options[1..], o);
    }
  }

  lemma PerformKeepsLengths(r: Run, op: Operation)
    requires LengthsAgree(r.header)
    ensures LengthsAgree(Perform(r, op).header)
    ensures Perform(r, op).header.length == Perform(r, op).header.byteLength - UNCOVERED_BYTES
            || Perform(r, op).header == r.header
  {
    if op.PutOption? {
      OptionsBytesAppend(r.header.options, op.option);
    }
  }

  ghost predicate Conserves(r: Run, entriesIn: seq<Entry>, optionsIn: seq<SdOption>) {
    && LengthsAgree(r.header)
    && r.entriesOut + r.header.entries == entriesIn
    && r.optionsOut + r.header.options == optionsIn
    && (r.header.length == r.header.byteLength - UNCOVERED_BYTES
        || (r.header == EMPTY && entriesIn == [] && optionsIn == []))
  }

  lemma EntryTaken(h: Header, out: seq<Entry>)
    ensures out + Taken(h.entries) + WithoutEntry(h).entries == out + h.entries
    ensures WithoutEntry(h).options == h.options
  {
  }

  lemma OptionTaken(h: Header, out: seq<SdOption>)
    ensures out + Taken(h.options) + WithoutOption(h).options == out + h.options
    ensures WithoutOption(h).entries == h.entries
  {
  }

  lemma ConservesOneMore(r: Run, op: Operation, entriesIn: seq<Entry>, optionsIn: seq<SdOption>)
    requires Conserves(r, entriesIn, optionsIn)
    ensures Conserves(Perform(r, op),
                      entriesIn + (if op.PutEntry? then [op.entry] else []),
                      optionsIn + (if op.PutOption? then [op.option] else []))
  {
    hide LengthsAgree;
    PerformKeepsLengths(r, op);
    match op
    case PutEntry(e) =>
      assert r.entriesOut + (r.header.entries + [e]) == (r.entriesOut + r.header.entries) + [e];
    case TakeEntry => EntryTaken(r.header, r.entriesOut);
    case PutOption(o) =>
      assert r.optionsOut + (r.header.options + [o]) == (r.optionsOut + r.header.options) + [o];
    case TakeOption => OptionTaken(r.header, r.optionsOut);
  }

  /** Over any run of encapsulations and decapsulations of a fresh header: elements come out in the
      order they went in, none is lost, and every length field counts what is inside. */
  lemma {:induction false} HeaderConservation(ops: seq<Operation>)
    ensures Conserves(After(ops), EntriesIn(ops), OptionsIn(ops))
  {
    if ops != [] {
      hide Conserves;
      hide Perform;
      var before, op := ops[..|ops| - 1], ops[|ops| - 1];
      HeaderConservation(before);
      ConservesOneMore(After(before), op, EntriesIn(before), OptionsIn(before));
    }
  }
}
