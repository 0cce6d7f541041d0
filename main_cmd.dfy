/** The `name:value` flag type of `cmd/gorp/main.go`. */
module MainCmd {
  import opened Outcomes
  import opened GoStrings

  /** The error `FlagStringMap.Set` returns for input without exactly one colon. */
  const ParseError := "parse error"

  /** `FlagStringMap`: a map from names to values, filled in place by Set. */
  class FlagStringMap {
    var entries: map<string, string>

    constructor ()
      ensures entries == map[]
    {
      entries := map[];
    }

    /**
     * `FlagStringMap.Set`: the input is split at every colon; with exactly
     * two pieces the first maps to the second, otherwise the map stays as
     * it was and a parse error is returned.
     */
    method Set(value: string) returns (err: Option<string>)
      modifies this
      ensures err.None? <==> Count(value, ':') == 1
      ensures err.Some? ==> err.value == ParseError && entries == old(entries)
      ensures err.None? ==> |Split(value, ':')| == 2
      ensures err.None? ==> entries == old(entries)[Split(value, ':')[0] := Split(value, ':')[1]]
    {
      var substrings := Split(value, ':');
      SplitLength(value, ':');
      if |substrings| != 2 {
        return Some(ParseError);
      }
      entries := entries[substrings[0] := substrings[1]];
      return None;
    }
  }

  /**
   * A name and a value without colons, written `name:value`, are exactly
   * what Set stores: the name maps to the value, nothing is trimmed, and
   * either may be empty.
   */
  lemma SetPieces(name: string, val: string)
    requires ':' !in name && ':' !in val
    ensures Count(name + ":" + val, ':') == 1
    ensures Split(name + ":" + val, ':') == [name, val]
  {
    SplitAtFirst(name, val, ':');
    SplitFree(val, ':');
    assert name + [':'] + val == name + ":" + val;
    SplitLength(name + ":" + val, ':');
  }

  /** Whatever Set accepts is a name and a value without colons joined by the colon. */
  lemma SetAcceptedShape(value: string)
    requires Count(value, ':') == 1
    ensures var parts := Split(value, ':');
            |parts| == 2 && value == parts[0] + ":" + parts[1] && ':' !in parts[0] && ':' !in parts[1]
  {
    var parts := Split(value, ':');
    SplitLength(value, ':');
    SplitPiecesFree(value, ':');
    JoinSplit(value, ':');
    assert parts == [parts[0], parts[1]];
    assert Join(parts[1..], [':']) == parts[1];
  }

  /** The input ":" is accepted and maps the empty name to the empty value. */
  lemma SetEmptyNameAndValue()
    ensures Count(":", ':') == 1 && Split(":", ':') == ["", ""]
  {
    SetPieces("", "");
    assert "" + ":" + "" == ":";
  }
}
