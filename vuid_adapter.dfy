/** `CoreErrorLocationVuidAdapter`: a location paired with a caller-supplied
    resolver that names the valid-usage identifier (VUID) broken at that
    location. Error reporting reads the entry point's name and the VUID through it. */
module VuidAdapter {
  import opened ErrorNames
  import opened ErrorLocation
  import MessageParse

  /** The adapter holds its location and resolver unchanged from construction;
      the resolver is the value of the functor type. */
  datatype CoreErrorLocationVuidAdapter = CoreErrorLocationVuidAdapter(
    loc: CoreErrorLocation,
    vuidFunctor: CoreErrorLocation -> string)
  {
    /** `FuncName`: the held location's entry-point name, which is also how the
        location's message begins. */
    function FuncName(): (r: Name)
      ensures r == "" <==> loc.funcName == ErrFunc.Empty
      ensures r + "(): " <= loc.Message()
    {
      loc.StringFuncName()
    }

    /** `Vuid`: the resolver applied to the held location. */
    function Vuid(): (r: string)
      ensures r == vuidFunctor(loc)
    {
      vuidFunctor(loc)
    }
  }

  /** With a resolver that always answers the same literal, `Vuid` returns that
      literal unchanged, whatever the location. */
  lemma StubResolverVuid(loc: CoreErrorLocation, literal: string)
    ensures CoreErrorLocationVuidAdapter(loc, _ => literal).Vuid() == literal
  {
  }

  /** The name `FuncName` reports is the one a reader finds in the location's
      message, before its first "(". */
  lemma FuncNameInMessage(a: CoreErrorLocationVuidAdapter)
    ensures MessageParse.ParseMessage(a.loc.Message()).Some?
    ensures MessageParse.ParseMessage(a.loc.Message()).value.funcName == a.FuncName()
  {
    MessageParse.ParseMessageRoundTrip(a.loc);
  }

  /** An adapter built for a location reached by `dot` calls reports the same
      entry point as one built for the starting location. */
  lemma FuncNameAlongDots(loc: CoreErrorLocation, steps: seq<Path>, f: CoreErrorLocation -> string, g: CoreErrorLocation -> string)
    ensures CoreErrorLocationVuidAdapter(DotChain(loc, steps), g).FuncName()
         == CoreErrorLocationVuidAdapter(loc, f).FuncName()
  {
  }
}
