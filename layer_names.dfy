/**
 * Layer names of the form "<datasetId>/<variableId>": how they are built, and
 * how they are taken apart again with Java's `String.split("/")`, which keeps
 * leading empty fields and drops trailing ones.
 */
module LayerNames {
  import opened Edal

  const Slash: char := '/'

  /** `s` cut at every '/': k separators give k + 1 fields, empty ones included. */
  function Fields(s: string): (r: seq<string>)
    ensures |r| >= 1
    ensures forall i :: 0 <= i < |r| ==> Slash !in r[i]
    decreases |s|
  {
    if s == [] then [""]
    else
      var rest := Fields(s[1..]);
      if s[0] == Slash then [""] + rest else [[s[0]] + rest[0]] + rest[1..]
  }

  /** `parts` without its run of trailing empty strings. */
  function StripTrailingEmpty(parts: seq<string>): (r: seq<string>)
    ensures r <= parts
    ensures r != [] ==> r[|r| - 1] != ""
    ensures forall k :: |r| <= k < |parts| ==> parts[k] == ""
  {
    if parts == [] then []
    else if parts[|parts| - 1] == "" then StripTrailingEmpty(parts[..|parts| - 1])
    else parts
  }

  /** Java's `s.split("/")`: a string without '/' is its own single field
      (even the empty string); otherwise the fields, trailing empty ones dropped. */
  function Split(s: string): (r: seq<string>)
    ensures forall i :: 0 <= i < |r| ==> Slash !in r[i]
    ensures r != [] && Slash in s ==> r[|r| - 1] != ""
  {
    if Slash !in s then [s] else StripTrailingEmpty(Fields(s))
  }

  /** getLayerName(datasetId, variableId). */
  function LayerName(datasetId: string, variableId: string): (r: string)
    ensures |r| == |datasetId| + 1 + |variableId|
    ensures r[..|datasetId|] == datasetId && r[|datasetId|] == Slash
    ensures r[|datasetId| + 1..] == variableId
  {
    datasetId + [Slash] + variableId
  }

  /** The two parts of a well-formed layer name. */
  datatype LayerRef = LayerRef(datasetId: string, variableId: string)

  /** The split and the two-part check that getDatasetFromLayerName and
      getVariableIdFromLayerName both perform before using a part. */
  function ParseLayerName(name: string): (r: Result<LayerRef>)
    ensures r.Err? <==> |Split(name)| != 2
    ensures r.Err? ==> r.error == LayerNotFound
    ensures r.Ok? ==> r.value == LayerRef(Split(name)[0], Split(name)[1])
  {
    var parts := Split(name);
    if |parts| != 2 then Err(LayerNotFound) else Ok(LayerRef(parts[0], parts[1]))
  }

  /** getVariableIdFromLayerName: the second part, or WmsLayerNotFoundException. */
  function GetVariableIdFromLayerName(name: string): (r: Result<string>)
    ensures r.Err? <==> |Split(name)| != 2
    ensures r.Err? ==> r.error == LayerNotFound
    ensures r.Ok? ==> Slash !in r.value && r.value != "" && r.value == Split(name)[1]
  {
    match ParseLayerName(name)
    case Ok(ref) => Ok(ref.variableId)
    case Err(e) => Err(e)
  }

  // ---------------------------------------------------------------------------
  // Joining and splitting

  /** The fields put back together with '/' between them. */
  function Join(parts: seq<string>): string
    requires |parts| >= 1
  {
    if |parts| == 1 then parts[0] else parts[0] + [Slash] + Join(parts[1..])
  }

  /** k separators in a row. */
  function Slashes(k: nat): (r: string)
    ensures |r| == k && forall i :: 0 <= i < k ==> r[i] == Slash
  {
    seq(k, _ => Slash)
  }

  /** k empty strings. */
  function Empties(k: nat): (r: seq<string>)
    ensures |r| == k && forall i :: 0 <= i < k ==> r[i] == ""
  {
    seq(k, _ => "")
  }

  /** Cutting a string at every separator and joining the fields gives it back. */
  lemma {:induction false} JoinFields(s: string)
    ensures Join(Fields(s)) == s
    decreases |s|
  {
    if s != [] {
      var rest := Fields(s[1..]);
      JoinFields(s[1..]);
      if s[0] == Slash {
        assert Fields(s) == [""] + rest;
        assert Join(Fields(s)) == "" + [Slash] + Join(rest);
        assert s == [s[0]] + s[1..];
      } else {
        var f := Fields(s);
        assert f == [[s[0]] + rest[0]] + rest[1..];
        if |rest| == 1 {
          assert Join(f) == [s[0]] + rest[0];
        } else {
          assert f[1..] == rest[1..];
          assert Join(f) == [s[0]] + rest[0] + [Slash] + Join(rest[1..]);
          assert Join(rest) == rest[0] + [Slash] + Join(rest[1..]);
        }
        assert s == [s[0]] + s[1..];
      }
    }
  }

  /** A string without separators is one field. */
  lemma {:induction false} FieldsWithoutSlash(s: string)
    requires Slash !in s
    ensures Fields(s) == [s]
    decreases |s|
  {
    if s != [] {
      assert Slash !in s[1..] by {
        forall i | 0 <= i < |s[1..]| ensures s[1..][i] != Slash { assert s[1..][i] == s[i + 1]; }
      }
      FieldsWithoutSlash(s[1..]);
      assert [s[0]] + s[1..] == s;
    }
  }

  /** The first separator of a string ends its first field. */
  lemma {:induction false} FieldsAfterSlash(a: string, b: string)
    requires Slash !in a
    ensures Fields(a + [Slash] + b) == [a] + Fields(b)
    decreases |a|
  {
    var s := a + [Slash] + b;
    if a == [] {
      assert s[0] == Slash && s[1..] == b;
    } else {
      assert s[0] == a[0] && s[1..] == a[1..] + [Slash] + b;
      assert Slash !in a[1..] by {
        forall i | 0 <= i < |a[1..]| ensures a[1..][i] != Slash { assert a[1..][i] == a[i + 1]; }
      }
      FieldsAfterSlash(a[1..], b);
      assert [a[0]] + a[1..] == a;
    }
  }

  /** A run of k separators is k + 1 empty fields. */
  lemma {:induction false} FieldsOfSlashes(k: nat)
    ensures Fields(Slashes(k)) == Empties(k + 1)
  {
    if k > 0 {
      assert Slashes(k) == [] + [Slash] + Slashes(k - 1);
      FieldsAfterSlash([], Slashes(k - 1));
      FieldsOfSlashes(k - 1);
      assert Empties(k + 1) == [""] + Empties(k);
    } else {
      assert Slashes(0) == [];
    }
  }

  /** Trailing empty fields are dropped and nothing before them. */
  lemma {:induction false} StripEmpties(p: seq<string>, k: nat)
    requires p != [] && p[|p| - 1] != ""
    ensures StripTrailingEmpty(p + Empties(k)) == p
  {
    if k > 0 {
      var q := p + Empties(k);
      assert q[|q| - 1] == "";
      assert q[..|q| - 1] == p + Empties(k - 1);
      StripEmpties(p, k - 1);
    } else {
      assert p + Empties(0) == p;
    }
  }

  /** A field followed by k empty fields joins to that field and k separators. */
  lemma {:induction false} JoinEmpties(x: string, k: nat)
    ensures Join([x] + Empties(k)) == x + Slashes(k)
    decreases k
  {
    if k > 0 {
      var p := [x] + Empties(k);
      assert p[1..] == [""] + Empties(k - 1);
      JoinEmpties("", k - 1);
      assert Join(p) == x + [Slash] + ("" + Slashes(k - 1));
      assert x + Slashes(k) == x + [Slash] + Slashes(k - 1);
    } else {
      assert [x] + Empties(0) == [x];
      assert x + Slashes(0) == x;
    }
  }

  // ---------------------------------------------------------------------------
  // What the layer-name accessors accept

  /** A dataset id and a non-empty variable id without separators, joined by
      getLayerName and followed by any number of stray separators, split back
      into exactly those two parts. */
  lemma {:induction false} TrailingSlashesAccepted(d: string, v: string, k: nat)
    requires Slash !in d && Slash !in v && v != ""
    ensures Split(LayerName(d, v) + Slashes(k)) == [d, v]
    ensures ParseLayerName(LayerName(d, v) + Slashes(k)) == Ok(LayerRef(d, v))
  {
    var s := LayerName(d, v) + Slashes(k);
    assert s == d + [Slash] + (v + Slashes(k));
    assert s[|d|] == Slash;
    FieldsAfterSlash(d, v + Slashes(k));
    if k == 0 {
      assert v + Slashes(0) == v;
      FieldsWithoutSlash(v);
      assert Fields(s) == [d, v] + Empties(0);
    } else {
      assert v + Slashes(k) == v + [Slash] + Slashes(k - 1);
      FieldsAfterSlash(v, Slashes(k - 1));
      FieldsOfSlashes(k - 1);
      assert Fields(s) == [d, v] + Empties(k);
    }
    StripEmpties([d, v], k);
  }

  /** Round trip: the variable accessor gives back the variable id and the
      dataset accessor looks up the dataset id. */
  lemma LayerNameRoundTrip(d: string, v: string)
    requires Slash !in d && Slash !in v && v != ""
    ensures ParseLayerName(LayerName(d, v)) == Ok(LayerRef(d, v))
    ensures GetVariableIdFromLayerName(LayerName(d, v)) == Ok(v)
  {
    TrailingSlashesAccepted(d, v, 0);
    assert LayerName(d, v) + Slashes(0) == LayerName(d, v);
  }

  /** Conversely, every accepted name is such a name: two separator-free parts,
      the second non-empty, joined by '/' and followed only by separators. */
  lemma {:induction false} AcceptedNamesAreLayerNames(s: string)
    requires ParseLayerName(s).Ok?
    ensures var ref := ParseLayerName(s).value;
      Slash !in ref.datasetId && Slash !in ref.variableId && ref.variableId != "" &&
      exists k: nat :: s == LayerName(ref.datasetId, ref.variableId) + Slashes(k)
  {
    var ref := ParseLayerName(s).value;
    var f := Fields(s);
    var r := Split(s);
    assert Slash in s;
    assert r == StripTrailingEmpty(f) == [ref.datasetId, ref.variableId];
    var m := |f| - 2;
    assert f == [ref.datasetId, ref.variableId] + Empties(m) by {
      assert f[..2] == r;
    }
    JoinFields(s);
    var tail := [ref.variableId] + Empties(m);
    assert f == [ref.datasetId] + tail;
    assert f[1..] == tail;
    assert Join(f) == ref.datasetId + [Slash] + Join(tail);
    JoinEmpties(ref.variableId, m);
    assert s == LayerName(ref.datasetId, ref.variableId) + Slashes(m);
  }

  /** A name whose variable part is empty ("a/") is rejected. */
  lemma EmptyVariableRejected(d: string)
    requires Slash !in d
    ensures ParseLayerName(LayerName(d, "")).Err?
    ensures GetVariableIdFromLayerName(LayerName(d, "")).Err?
  {
    var s := LayerName(d, "");
    assert s == d + [Slash] + "";
    FieldsAfterSlash(d, "");
    assert Fields(s) == [d, ""];
  }
}
