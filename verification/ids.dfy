/** The shape of request ids: "ID-" followed by six ASCII alphanumeric
    characters. The random draw itself is an input. */
module RequestIds {
  import opened Messages

  const Prefix: string := "ID-"
  const SuffixLength: nat := 6

  predicate IsAlphanumeric(c: char)
  {
    ('a' <= c <= 'z') || ('A' <= c <= 'Z') || ('0' <= c <= '9')
  }

  predicate IsDraw(s: seq<char>)
  {
    |s| == SuffixLength && forall i :: 0 <= i < |s| ==> IsAlphanumeric(s[i])
  }

  /** A well-formed request id. */
  predicate IsRequestId(id: string)
  {
    |id| == |Prefix| + SuffixLength && id[..|Prefix|] == Prefix && IsDraw(id[|Prefix|..])
  }

  /** Builds a request id from six drawn characters. */
  function GenerateId(draw: seq<char>): (id: string)
    requires IsDraw(draw)
    ensures IsRequestId(id)
    ensures |id| == 9 && id[..3] == "ID-"
  {
    Prefix + draw
  }

  /** Recovers the drawn characters of a well-formed id, or None. */
  function DrawOf(id: string): (r: Option<seq<char>>)
    ensures r.Some? <==> IsRequestId(id)
    ensures r.Some? ==> IsDraw(r.value)
  {
    if IsRequestId(id) then Some(id[|Prefix|..]) else None
  }

  /** Generating then parsing gives the draw back, and every well-formed
      id is generated from the draw it carries. */
  lemma IdRoundTrip(draw: seq<char>, id: string)
    requires IsDraw(draw)
    ensures DrawOf(GenerateId(draw)) == Some(draw)
    ensures DrawOf(id) == Some(draw) ==> GenerateId(draw) == id
  {
    var g := GenerateId(draw);
    assert g[..|Prefix|] == Prefix && g[|Prefix|..] == draw;
    if DrawOf(id) == Some(draw) {
      assert id == id[..|Prefix|] + id[|Prefix|..];
    }
  }
}
