/**
 * The tag string parser of apply_tags.py (`parse_tags`): "k1=v1,k2=v2"
 * becomes a dict, and the dict-building loop it shares with the S3 path.
 */
module TagParser {
  import opened Wrappers
  import opened PyStrings

  /** One `{'Key': k, 'Value': v}` entry. */
  datatype Tag = Tag(key: string, value: string)

  /** A Python dict of tags; its insertion order is not modelled. */
  type TagMap = map<string, string>

  /** The dict that assigning `d[key] = value` for each pair in turn builds. */
  function DictOf(pairs: seq<Tag>): TagMap {
    if pairs == [] then map[]
    else DictOf(pairs[..|pairs| - 1])[pairs[|pairs| - 1].key := pairs[|pairs| - 1].value]
  }

  /** Filling a dict from two lists in turn: the second list overrides the first. */
  lemma {:induction false} DictOfAppend(a: seq<Tag>, b: seq<Tag>)
    ensures DictOf(a + b) == DictOf(a) + DictOf(b)
    decreases |b|
  {
    if b == [] {
      assert a + b == a;
    } else {
      var init := b[..|b| - 1];
      assert (a + b)[..|a + b| - 1] == a + init;
      DictOfAppend(a, init);
    }
  }

  /** The dict's keys are exactly the keys the pairs carry. */
  lemma {:induction false} DictOfKeys(pairs: seq<Tag>)
    ensures DictOf(pairs).Keys == set i | 0 <= i < |pairs| :: pairs[i].key
  {
    if pairs != [] {
      var init := pairs[..|pairs| - 1];
      DictOfKeys(init);
      var last := pairs[|pairs| - 1].key;
      assert forall i :: 0 <= i < |init| ==> init[i] == pairs[i];
      assert (set i | 0 <= i < |pairs| :: pairs[i].key) == (set i | 0 <= i < |init| :: init[i].key) + {last} by {
        forall i | 0 <= i < |pairs|
          ensures pairs[i].key in (set i | 0 <= i < |init| :: init[i].key) + {last}
        {
          if i < |init| {
            assert init[i].key == pairs[i].key;
          }
        }
      }
    }
  }

  /** A key's value is that of its last pair: later pairs overwrite earlier ones. */
  lemma {:induction false} DictOfLastWins(pairs: seq<Tag>, i: nat)
    requires i < |pairs|
    requires forall j :: i < j < |pairs| ==> pairs[j].key != pairs[i].key
    ensures pairs[i].key in DictOf(pairs) && DictOf(pairs)[pairs[i].key] == pairs[i].value
  {
    if i < |pairs| - 1 {
      DictOfLastWins(pairs[..|pairs| - 1], i);
    }
  }

  /**
   * One comma-separated piece `key=value`: split at its first '=', both
   * halves stripped; a piece without '=' gives no pair.
   */
  function PairOf(piece: string): Option<Tag> {
    if '=' in piece then
      var halves := SplitOnce(piece, '=');
      Some(Tag(Strip(halves.0), Strip(halves.1)))
    else None
  }

  /** The pairs of the pieces that hold an '=', in order. */
  function PairsOf(pieces: seq<string>): seq<Tag> {
    if pieces == [] then []
    else
      var init := PairsOf(pieces[..|pieces| - 1]);
      match PairOf(pieces[|pieces| - 1])
      case Some(tag) => init + [tag]
      case None => init
  }

  /** What `parse_tags` returns. */
  function ParsedTags(tagsString: string): TagMap {
    if tagsString == "" then map[] else DictOf(PairsOf(Split(tagsString, ",")))
  }

  /** `parse_tags`: fill the dict piece by piece. */
  method ParseTags(tagsString: string) returns (tags: TagMap)
    ensures tags == ParsedTags(tagsString)
  {
    if tagsString == "" {
      return map[];
    }
    tags := map[];
    var pieces := Split(tagsString, ",");
    ghost var pairs: seq<Tag> := [];
    for i := 0 to |pieces|
      invariant pairs == PairsOf(pieces[..i])
      invariant tags == DictOf(pairs)
    {
      var tagPair := pieces[i];
      assert pieces[..i + 1][..i] == pieces[..i];
      assert PairsOf(pieces[..i + 1]) == pairs + (if '=' in tagPair then [PairOf(tagPair).value] else []);
      if '=' in tagPair {
        var halves := SplitOnce(tagPair, '=');
        var key, value := Strip(halves.0), Strip(halves.1);
        tags := tags[key := value];
        pairs := pairs + [Tag(key, value)];
      }
    }
    assert pieces[..|pieces|] == pieces;
  }

  lemma {:induction false} PairsOfAppend(a: seq<string>, b: seq<string>)
    ensures PairsOf(a + b) == PairsOf(a) + PairsOf(b)
    decreases |b|
  {
    if b == [] {
      assert a + b == a;
    } else {
      var init := b[..|b| - 1];
      assert (a + b)[..|a + b| - 1] == a + init;
      PairsOfAppend(a, init);
    }
  }

  /**
   * Tags joined by a comma parse to the tags of the left part overridden by
   * those of the right part: pieces are taken in order and a later
   * duplicate key overwrites an earlier one.
   */
  lemma ParsedTagsAppend(a: string, b: string)
    ensures ParsedTags(a + "," + b) == ParsedTags(a) + ParsedTags(b)
  {
    SplitAppend(a, ',', b);
    PairsOfAppend(Split(a, ","), Split(b, ","));
    DictOfAppend(PairsOf(Split(a, ",")), PairsOf(Split(b, ",")));
    assert PairsOf(Split("", ",")) == [];
  }

  /** A non-empty comma-free string is a single piece. */
  lemma ParsedTagsOfPiece(piece: string)
    requires ',' !in piece && piece != ""
    ensures ParsedTags(piece) == DictOf(PairsOf([piece]))
  {
    OccursChar(',', piece);
    SplitNoSeparator(piece, ",");
  }

  /** A piece without '=' parses to no tag: it is dropped. */
  lemma ParsedTagsNoPair(piece: string)
    requires ',' !in piece && '=' !in piece
    ensures ParsedTags(piece) == map[]
  {
    if piece != "" {
      ParsedTagsOfPiece(piece);
      assert [piece][..0] == [];
    }
  }

  /** A piece is cut at its first '=': the value keeps every later '='. */
  lemma PairOfKeyValue(key: string, value: string)
    requires '=' !in key
    ensures PairOf(key + "=" + value) == Some(Tag(Strip(key), Strip(value)))
  {
    SplitOnceOf(key, '=', value);
    assert (key + "=" + value)[|key|] == '=';
  }

  lemma DictOfOne(piece: string, tag: Tag)
    requires PairOf(piece) == Some(tag)
    ensures DictOf(PairsOf([piece])) == map[tag.key := tag.value]
  {
    assert [piece][..0] == [];
    assert [tag][..0] == [];
  }

  /**
   * A comma-free piece `key=value` with an '='-free key parses to one tag:
   * the key is the stripped text before the first '=', the value the
   * stripped text after it, '=' signs included.
   */
  lemma ParsedTagsPair(key: string, value: string)
    requires '=' !in key && ',' !in key && ',' !in value
    ensures ParsedTags(key + "=" + value) == map[Strip(key) := Strip(value)]
  {
    var piece: string := key + "=" + value;
    assert piece[|key|] == '=' && ',' !in piece;
    ParsedTagsOfPiece(piece);
    PairOfKeyValue(key, value);
    DictOfOne(piece, Tag(Strip(key), Strip(value)));
  }

  /** A later duplicate key overwrites the earlier one. */
  lemma ParsedTagsLaterKeyWins(key: string, first: string, second: string)
    requires '=' !in key && ',' !in key && ',' !in first && ',' !in second
    ensures ParsedTags(key + "=" + first + "," + key + "=" + second) == map[Strip(key) := Strip(second)]
  {
    var a, b := key + "=" + first, key + "=" + second;
    assert key + "=" + first + "," + key + "=" + second == a + "," + b;
    ParsedTagsAppend(a, b);
    ParsedTagsPair(key, first);
    ParsedTagsPair(key, second);
    OverrideOne(Strip(key), Strip(first), Strip(second));
  }

  /** Literal pieces of the example below, with what `strip()` makes of them. */
  lemma StripExamples()
    ensures Strip("a") == "a" && Strip("b") == "b" && Strip("c") == "c"
    ensures Strip("1") == "1" && Strip("2") == "2" && Strip(" 3 ") == "3"
  {
    assert TrimLeft(" 3 ") == TrimLeft("3 ") == "3 ";
    assert TrimRight("3 ") == TrimRight("3") == "3";
  }

  /**
   * "a=1,b=2,bad,c= 3 " parses to {a: 1, b: 2, c: 3}: the piece without '='
   * is dropped and the value of c is stripped. The pieces are parameters so
   * that the parser is reasoned about through its lemmas, not unfolded on
   * the literal.
   */
  lemma MixedTagsExample(a1: string, b2: string, bad: string, c3: string)
    requires a1 == "a=1" && b2 == "b=2" && bad == "bad" && c3 == "c= 3 "
    ensures ParsedTags(a1 + "," + b2 + "," + bad + "," + c3) == map["a" := "1", "b" := "2", "c" := "3"]
  {
    StripExamples();
    DroppedPieceExample(bad, c3);
    assert b2 == "b" + "=" + "2";
    PrependPair("b", "2", bad + "," + c3);
    assert a1 == "a" + "=" + "1";
    PrependPair("a", "1", b2 + "," + bad + "," + c3);
    assert a1 + "," + b2 + "," + bad + "," + c3 == a1 + "," + (b2 + "," + bad + "," + c3);
    assert b2 + "," + bad + "," + c3 == b2 + "," + (bad + "," + c3);
    ThreeKeys("a", "b", "c", "1", "2", "3");
  }

  /** Three tags with different keys, merged in turn, make one dict of three entries. */
  lemma ThreeKeys(x: string, y: string, z: string, u: string, v: string, w: string)
    requires x != y && y != z && x != z
    ensures map[x := u] + (map[y := v] + map[z := w]) == map[x := u, y := v, z := w]
  {
    var merged := map[x := u] + (map[y := v] + map[z := w]);
    assert merged.Keys == {x, y, z};
  }

  /** The last two pieces of the example: "bad" is dropped, "c= 3 " gives c: 3. */
  lemma DroppedPieceExample(bad: string, c3: string)
    requires bad == "bad" && c3 == "c= 3 "
    ensures ParsedTags(bad + "," + c3) == map["c" := "3"]
  {
    DropPiece(bad, c3);
    assert c3 == "c" + "=" + " 3 ";
    ParsedTagsPair("c", " 3 ");
    StripExamples();
  }

  /** A piece without '=' in front of more tags changes nothing. */
  lemma DropPiece(piece: string, rest: string)
    requires ',' !in piece && '=' !in piece
    ensures ParsedTags(piece + "," + rest) == ParsedTags(rest)
  {
    ParsedTagsAppend(piece, rest);
    ParsedTagsNoPair(piece);
    assert map[] + ParsedTags(rest) == ParsedTags(rest);
  }

  /** A `key=value` piece in front of more tags adds its tag, unless the rest sets that key again. */
  lemma PrependPair(key: string, value: string, rest: string)
    requires '=' !in key && ',' !in key && ',' !in value
    ensures ParsedTags(key + "=" + value + "," + rest) == map[Strip(key) := Strip(value)] + ParsedTags(rest)
  {
    ParsedTagsAppend(key + "=" + value, rest);
    ParsedTagsPair(key, value);
  }

  lemma OverrideOne(key: string, first: string, second: string)
    ensures map[key := first] + map[key := second] == map[key := second]
  {
    var merged := map[key := first] + map[key := second];
    assert merged.Keys == {key};
  }
}
