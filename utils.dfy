/** The length-prefixed value lists of the point-data message: every value
    followed by a comma, preceded by the body's length as nine zero-padded
    decimal digits. Values arrive already converted to text; the coordinate
    conversion that produces them is not part of this model. */
module Utils {
  import opened Python

  /** Width of the zero-padded decimal length in front of each list. */
  const LengthFieldWidth: nat := 9

  /** Each value followed by `,`. */
  function CommaList(values: seq<string>): string
  {
    if values == [] then "" else CommaList(values[..|values| - 1]) + values[|values| - 1] + ","
  }

  /** `format(len(body), "09") + body`. */
  function LengthPrefixed(body: string): string
  {
    ZeroPad(|body|, LengthFieldWidth) + body
  }

  /** The prefix is all digits and reads back as the body's length; it is
      exactly nine characters exactly when the body is shorter than 10^9. */
  lemma LengthPrefixField(body: string)
    ensures var field := ZeroPad(|body|, LengthFieldWidth);
      && LengthPrefixed(body) == field + body
      && ParseInt(field) == Some(|body|)
      && (|field| == LengthFieldWidth <==> |body| < Pow10(LengthFieldWidth))
  {
    ZeroPadField(|body|, LengthFieldWidth);
    ParseIntZeroPad(|body|, LengthFieldWidth);
  }

  /** The loop body of the list builders: a value and its comma, added to what was built so far. */
  method EncodeValueList(values: seq<string>) returns (block: string)
    ensures block == LengthPrefixed(CommaList(values))
  {
    var body := "";
    for i := 0 to |values|
      invariant body == CommaList(values[..i])
    {
      assert values[..i + 1][..i] == values[..i];
      body := body + values[i] + ",";
    }
    assert values[..|values|] == values;
    block := ZeroPad(|body|, LengthFieldWidth) + body;
  }

  /** `get_luminosity_data`: the list built from the column named `attribute`. */
  method GetLuminosityData(data: map<string, seq<string>>, attribute: string) returns (r: Result<string>)
    ensures attribute !in data ==> r == Err(KeyError)
    ensures attribute in data ==> r == Ok(LengthPrefixed(CommaList(data[attribute])))
  {
    if attribute !in data {
      return Err(KeyError);
    }
    var block := EncodeValueList(data[attribute]);
    r := Ok(block);
  }

  /** `get_velocity_data`: the same list encoding over the velocity column. */
  method GetVelocityData(data: map<string, seq<string>>, attribute: string) returns (r: Result<string>)
    ensures attribute !in data ==> r == Err(KeyError)
    ensures attribute in data ==> r == Ok(LengthPrefixed(CommaList(data[attribute])))
  {
    if attribute !in data {
      return Err(KeyError);
    }
    var block := EncodeValueList(data[attribute]);
    r := Ok(block);
  }

  /** The string assembly at the end of `get_point_data`: one pass over the
      points appends to the x, y and z lists together, so a `y` or `z` column
      shorter than `x` raises `IndexError`, and a longer one is cut to `|x|`. */
  method FormatPointData(x: seq<string>, y: seq<string>, z: seq<string>) returns (r: Result<string>)
    ensures |y| < |x| || |z| < |x| ==> r == Err(IndexError)
    ensures |y| >= |x| && |z| >= |x| ==>
      r == Ok(LengthPrefixed(CommaList(x)) + LengthPrefixed(CommaList(y[..|x|])) + LengthPrefixed(CommaList(z[..|x|])))
  {
    var xs, ys, zs := "", "", "";
    for i := 0 to |x|
      invariant i <= |y| && i <= |z|
      invariant xs == CommaList(x[..i]) && ys == CommaList(y[..i]) && zs == CommaList(z[..i])
    {
      if i >= |y| || i >= |z| {
        return Err(IndexError);
      }
      assert x[..i + 1][..i] == x[..i] && y[..i + 1][..i] == y[..i] && z[..i + 1][..i] == z[..i];
      xs := xs + x[i] + ",";
      ys := ys + y[i] + ",";
      zs := zs + z[i] + ",";
    }
    assert x[..|x|] == x;
    r := Ok(LengthPrefixed(xs) + LengthPrefixed(ys) + LengthPrefixed(zs));
  }

  // ---------------------------------------------------------------- reading back

  /** Reads `count` consecutive length-prefixed blocks and returns their bodies. */
  function ReadBlocks(s: string, count: nat): Option<seq<string>>
    decreases count
  {
    if count == 0 then Some([])
    else if |s| < LengthFieldWidth then None
    else
      match ParseInt(s[..LengthFieldWidth])
      case None => None
      case Some(n) =>
        if n < 0 || LengthFieldWidth + n > |s| then None
        else
          match ReadBlocks(s[LengthFieldWidth + n..], count - 1)
          case None => None
          case Some(bodies) => Some([s[LengthFieldWidth..LengthFieldWidth + n]] + bodies)
  }

  /** The nine-character prefix is exactly the body's length, so a reader can
      take the body off the front and carry on with what follows. */
  lemma ReadBlockPrefixed(body: string, rest: string, count: nat)
    requires |body| < Pow10(LengthFieldWidth)
    ensures ReadBlocks(LengthPrefixed(body) + rest, count + 1) ==
      match ReadBlocks(rest, count)
      case None => None
      case Some(bodies) => Some([body] + bodies)
  {
    var s := LengthPrefixed(body) + rest;
    ZeroPadField(|body|, LengthFieldWidth);
    ParseIntZeroPad(|body|, LengthFieldWidth);
    assert s[..LengthFieldWidth] == ZeroPad(|body|, LengthFieldWidth);
    assert s[LengthFieldWidth..LengthFieldWidth + |body|] == body;
    assert s[LengthFieldWidth + |body|..] == rest;
  }

  /** A block in front of `count` readable blocks makes `count + 1` readable blocks. */
  lemma ReadBlockCons(body: string, rest: string, count: nat, bodies: seq<string>)
    requires |body| < Pow10(LengthFieldWidth) && ReadBlocks(rest, count) == Some(bodies)
    ensures ReadBlocks(LengthPrefixed(body) + rest, count + 1) == Some([body] + bodies)
  {
    ReadBlockPrefixed(body, rest, count);
  }

  /** The blocks of `bodies`, one after the other. */
  function Blocks(bodies: seq<string>): string
  {
    if bodies == [] then "" else LengthPrefixed(bodies[0]) + Blocks(bodies[1..])
  }

  /** Any run of blocks reads back as the bodies it was made of. */
  lemma {:induction false} ReadAllBlocks(bodies: seq<string>)
    requires forall i :: 0 <= i < |bodies| ==> |bodies[i]| < Pow10(LengthFieldWidth)
    ensures ReadBlocks(Blocks(bodies), |bodies|) == Some(bodies)
  {
    if bodies != [] {
      ReadAllBlocks(bodies[1..]);
      ReadBlockCons(bodies[0], Blocks(bodies[1..]), |bodies| - 1, bodies[1..]);
      assert [bodies[0]] + bodies[1..] == bodies;
    }
  }

  /** The point-data string read back as three blocks gives the x, y and z
      lists, in that order. */
  lemma PointDataBlocks(xList: string, yList: string, zList: string)
    requires |xList| < Pow10(LengthFieldWidth)
    requires |yList| < Pow10(LengthFieldWidth) && |zList| < Pow10(LengthFieldWidth)
    ensures ReadBlocks(LengthPrefixed(xList) + LengthPrefixed(yList) + LengthPrefixed(zList), 3)
      == Some([xList, yList, zList])
  {
    var all := [xList, yList, zList];
    ReadAllBlocks(all);
    BlocksThree(xList, yList, zList);
    var text := LengthPrefixed(xList) + LengthPrefixed(yList) + LengthPrefixed(zList);
    assert text == Blocks(all) && |all| == 3;
  }

  lemma BlocksThree(x: string, y: string, z: string)
    ensures Blocks([x, y, z]) == LengthPrefixed(x) + LengthPrefixed(y) + LengthPrefixed(z)
  {
    var all := [x, y, z];
    assert all[1..] == [y, z] && all[1..][1..] == [z] && all[1..][1..][1..] == [];
    assert Blocks([z]) == LengthPrefixed(z) + "";
    assert LengthPrefixed(z) + "" == LengthPrefixed(z);
    assert Blocks(all) == LengthPrefixed(x) + (LengthPrefixed(y) + LengthPrefixed(z));
  }

  /** Appending one value adds it and one comma to the front-first reading of the list. */
  lemma {:induction false} CommaListCons(v: string, values: seq<string>)
    ensures CommaList([v] + values) == v + "," + CommaList(values)
    decreases |values|
  {
    if values != [] {
      var init := values[..|values| - 1];
      assert ([v] + values)[..|values|] == [v] + init;
      CommaListCons(v, init);
    } else {
      assert ([v] + values)[..0] == [];
    }
  }

  /** When no value holds a comma, the body holds exactly one comma per value,
      and splitting it at commas gives the values back followed by the empty
      text after the last comma. */
  lemma {:induction false} CommaListSplit(values: seq<string>)
    requires forall i :: 0 <= i < |values| ==> ',' !in values[i]
    ensures Split(CommaList(values), ',') == values + [""]
    ensures Count(CommaList(values), ',') == |values|
  {
    if values == [] {
    } else {
      CommaListCons(values[0], values[1..]);
      assert [values[0]] + values[1..] == values;
      CommaListSplit(values[1..]);
      SplitCons(values[0], ',', CommaList(values[1..]));
      assert values[0] + "," + CommaList(values[1..]) == values[0] + [','] + CommaList(values[1..]);
      SplitParts(CommaList(values), ',');
      SplitParts(CommaList(values[1..]), ',');
    }
  }

  /** Each of the three coordinate lists holds one comma-terminated entry per point. */
  lemma PointDataEntries(x: seq<string>, y: seq<string>, z: seq<string>)
    requires |y| >= |x| && |z| >= |x|
    requires forall i :: 0 <= i < |x| ==> ',' !in x[i] && ',' !in y[i] && ',' !in z[i]
    ensures Count(CommaList(x), ',') == Count(CommaList(y[..|x|]), ',') == Count(CommaList(z[..|x|]), ',') == |x|
  {
    CommaListSplit(x);
    CommaListSplit(y[..|x|]);
    CommaListSplit(z[..|x|]);
  }
}
