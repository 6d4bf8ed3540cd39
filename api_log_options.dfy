/** APILogOptionBase: the named diagnostic options, an option set over the bits of a
    Swift `Int`, and the three preset lists. Nothing in the pipeline consults them. */
module APILogOptions {

  /** An option set; `rawValue` is the 64-bit pattern of the Swift `Int` it wraps,
      and `LogOption(r)` is `init(rawValue: r)`. */
  datatype LogOption = LogOption(rawValue: bv64)

  const request := LogOption(1 << 0)
  const responseStatus := LogOption(1 << 2)
  const responseJSON := LogOption(1 << 3)
  const responseDecode := LogOption(1 << 4)
  const error := LogOption(1 << 5)
  const cache := LogOption(1 << 6)

  /** The preset `default`. */
  const defaultOptions: seq<LogOption> := [request, responseStatus, responseDecode, error]

  /** The preset `none`. */
  const noOptions: seq<LogOption> := []

  /** The preset `all`. */
  const allOptions: seq<LogOption> := [request, responseStatus, responseJSON, responseDecode, error, cache]

  /** The empty option set. */
  const empty := LogOption(0)

  /** Exactly one bit of the raw value is set. */
  predicate SingleBit(o: LogOption)
  {
    o.rawValue != 0 && o.rawValue & (o.rawValue - 1) == 0
  }

  /** No bit is set in both. */
  predicate Disjoint(a: LogOption, b: LogOption)
  {
    a.rawValue & b.rawValue == 0
  }

  /** `OptionSet.contains(_:)`: every bit of `member` is set in `options`. */
  predicate Contains(options: LogOption, member: LogOption)
  {
    options.rawValue & member.rawValue == member.rawValue
  }

  /** `OptionSet.union(_:)`. */
  function Union(a: LogOption, b: LogOption): (u: LogOption)
    ensures Contains(u, a) && Contains(u, b)
  {
    LogOption(a.rawValue | b.rawValue)
  }

  /** The option set made of a list of options, as `OptionSet`'s sequence initializer builds it. */
  function Combined(options: seq<LogOption>): LogOption
  {
    if options == [] then empty else Union(options[0], Combined(options[1..]))
  }

  /** A union keeps whatever either side contains, and adds only bits of one side. */
  lemma UnionContains(a: LogOption, b: LogOption, m: LogOption)
    ensures Contains(a, m) || Contains(b, m) ==> Contains(Union(a, b), m)
    ensures Disjoint(m, a) && Disjoint(m, b) ==> Disjoint(m, Union(a, b))
  {
  }

  /** The combined set contains each listed option. */
  lemma {:induction false} CombinedContainsEach(options: seq<LogOption>, o: LogOption)
    requires o in options
    ensures Contains(Combined(options), o)
  {
    if o != options[0] {
      CombinedContainsEach(options[1..], o);
      UnionContains(options[0], Combined(options[1..]), o);
    }
  }

  /** The combined set adds no option that is disjoint from every listed one. */
  lemma {:induction false} CombinedAddsNothing(options: seq<LogOption>, m: LogOption)
    requires forall o :: o in options ==> Disjoint(m, o)
    ensures Disjoint(m, Combined(options))
  {
    if options != [] {
      CombinedAddsNothing(options[1..], m);
      UnionContains(options[0], Combined(options[1..]), m);
    }
  }

  /** The six named options of the `all` preset, each once. */
  predicate Named(o: LogOption)
  {
    o == request || o == responseStatus || o == responseJSON || o == responseDecode || o == error || o == cache
  }

  lemma NamedOptionsAreSingleBits()
    ensures SingleBit(request) && SingleBit(responseStatus) && SingleBit(responseJSON)
    ensures SingleBit(responseDecode) && SingleBit(error) && SingleBit(cache)
  {
  }

  /** Distinct named options share no bit. */
  lemma NamedOptionsAreDisjoint(a: LogOption, b: LogOption)
    requires Named(a) && Named(b) && a != b
    ensures Disjoint(a, b)
  {
  }

  /** No named option uses bit `1 << 1`. */
  lemma BitOneIsUnused(a: LogOption)
    requires Named(a)
    ensures Disjoint(a, LogOption(1 << 1))
  {
  }

  lemma AllListsEveryNamedOptionOnce()
    ensures forall o :: o in allOptions <==> Named(o)
    ensures forall i, j :: 0 <= i < j < |allOptions| ==> allOptions[i] != allOptions[j]
  {
  }

  /** `default` is `all` without `responseJSON` and `cache`. */
  lemma DefaultIsAllButBodyAndCache()
    ensures forall o :: o in defaultOptions <==> o in allOptions && o != responseJSON && o != cache
    ensures forall o :: o in defaultOptions ==> o in allOptions
  {
  }

  /** As option sets: `default` lies inside `all`, leaves out the JSON preview and the
      cache options, and `none` is empty. */
  lemma PresetsAsOptionSets()
    ensures Contains(Combined(allOptions), Combined(defaultOptions))
    ensures !Contains(Combined(defaultOptions), responseJSON)
    ensures !Contains(Combined(defaultOptions), cache)
    ensures Combined(noOptions) == empty
    ensures forall o :: Named(o) ==> Contains(Combined(allOptions), o)
  {
    assert Combined(defaultOptions) == LogOption(0x35) by {
      assert Combined(defaultOptions[3..]) == error;
      assert Combined(defaultOptions[2..]) == LogOption(0x30);
      assert Combined(defaultOptions[1..]) == LogOption(0x34);
    }
    assert Combined(allOptions) == LogOption(0x7d) by {
      assert Combined(allOptions[5..]) == cache;
      assert Combined(allOptions[4..]) == LogOption(0x60);
      assert Combined(allOptions[3..]) == LogOption(0x70);
      assert Combined(allOptions[2..]) == LogOption(0x78);
      assert Combined(allOptions[1..]) == LogOption(0x7c);
    }
  }
}
