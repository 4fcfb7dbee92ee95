/** The image metadata codec: every literal `null` in the text is rewritten
    to `""` before JSON decoding (newImgJson), and a history manifest is
    decoded record by record until end of stream (newMultipleImgJson). The
    JSON decoder itself is a parameter. */
module Codec {
  import opened Wrappers
  import opened ImageModel

  /** The four characters of `s` starting at `i` spell `null`. */
  predicate NullAt(s: string, i: int)
  {
    0 <= i && i + 4 <= |s| && s[i] == 'n' && s[i + 1] == 'u' && s[i + 2] == 'l' && s[i + 3] == 'l'
  }

  /** `s` contains no occurrence of `null`. */
  predicate NullFree(s: string)
  {
    forall i :: 0 <= i < |s| ==> !NullAt(s, i)
  }

  /** `strings.Replace(s, "null", "\"\"", -1)`: scans left to right and
      replaces each non-overlapping occurrence of `null` by two double quotes. */
  function Normalize(s: string): (r: string)
    // Each replacement trades four characters for two.
    ensures |r| <= |s|
    ensures r == [] <==> s == []
  {
    if NullAt(s, 0) then "\"\"" + Normalize(s[4..])
    else if s == [] then []
    else [s[0]] + Normalize(s[1..])
  }

  /** What the first character of a normalised text tells about the text. */
  lemma NormalizeHead(t: string)
    requires |Normalize(t)| > 0 && Normalize(t)[0] != '"'
    ensures |t| > 0 && !NullAt(t, 0)
    ensures Normalize(t) == [t[0]] + Normalize(t[1..])
  {
  }

  /** No `null` survives normalisation. */
  lemma {:induction false} NormalizeNullFree(s: string)
    ensures NullFree(Normalize(s))
  {
    var r := Normalize(s);
    if NullAt(s, 0) {
      var t := s[4..];
      NormalizeNullFree(t);
      forall i | 0 <= i < |r| ensures !NullAt(r, i) {
        if i >= 2 {
          assert NullAt(r, i) == NullAt(Normalize(t), i - 2);
        }
      }
    } else if s != [] {
      var t := s[1..];
      NormalizeNullFree(t);
      forall i | 0 <= i < |r| ensures !NullAt(r, i) {
        if i >= 1 {
          assert NullAt(r, i) == NullAt(Normalize(t), i - 1);
        } else if NullAt(r, 0) {
          // the `ull` after r's first character comes from t unchanged,
          // which would make s itself start with `null`.
          NormalizeHead(t);
          NormalizeHead(t[1..]);
          assert t[1..][1..] == t[2..];
          NormalizeHead(t[2..]);
        }
      }
    }
  }

  /** Text without `null` is left as it is. */
  lemma {:induction false} NormalizeIdentity(s: string)
    requires NullFree(s)
    ensures Normalize(s) == s
  {
    assert !NullAt(s, 0);
    if s != [] {
      var t := s[1..];
      forall i | NullAt(t, i) ensures false {
        assert NullAt(s, i + 1);
      }
      NormalizeIdentity(t);
    }
  }

  /** Normalisation replaces an occurrence of `null` in place, whatever
      surrounds it: no occurrence can overlap one that starts later. */
  lemma {:induction false} NormalizeSplit(a: string, b: string)
    ensures Normalize(a + "null" + b) == Normalize(a) + "\"\"" + Normalize(b)
  {
    var s := a + "null" + b;
    if a == [] {
      assert s == "null" + b;
      assert NullAt(s, 0);
      assert s[4..] == b;
    } else if NullAt(s, 0) {
      assert |a| >= 4;
      assert NullAt(a, 0);
      assert s[4..] == a[4..] + "null" + b;
      NormalizeSplit(a[4..], b);
    } else {
      assert !NullAt(a, 0);
      assert s[1..] == a[1..] + "null" + b;
      NormalizeSplit(a[1..], b);
    }
  }

  /** The null-tolerance example: `{"id": null, "parent": "abc", "comment": null}`
      reaches the decoder with both nulls turned into empty strings. */
  lemma NormalizeExample()
    ensures Normalize("{\"id\": " + "null" + ", \"parent\": \"abc\", \"comment\": " + "null" + "}")
         == "{\"id\": " + "\"\"" + ", \"parent\": \"abc\", \"comment\": " + "\"\"" + "}"
  {
    var p1, p2, p3 := "{\"id\": ", ", \"parent\": \"abc\", \"comment\": ", "}";
    NullFreeLiteral(p1);
    NullFreeLiteral(p2);
    NullFreeLiteral(p3);
    NormalizeTwoNulls(p1, p2, p3);
  }

  /** The rewrite does not tell JSON tokens from string contents: a `null`
      inside a string value is rewritten too, and the record
      `{"comment": "see /dev/null"}` reaches the decoder as
      `{"comment": "see /dev/"""}`, where the string ends early. */
  lemma NormalizeRewritesStringValues()
    ensures Normalize("{\"comment\": \"see /dev/" + "null" + "\"}")
         == "{\"comment\": \"see /dev/" + "\"\"" + "\"}"
  {
    var p1, p2 := "{\"comment\": \"see /dev/", "\"}";
    NullFreeLiteral(p1);
    NullFreeLiteral(p2);
    NormalizeSplit(p1, p2);
    NormalizeIdentity(p1);
    NormalizeIdentity(p2);
  }

  /** Two nulls between null-free text become two pairs of quotes. */
  lemma NormalizeTwoNulls(p1: string, p2: string, p3: string)
    requires NullFree(p1) && NullFree(p2) && NullFree(p3)
    ensures Normalize(p1 + "null" + p2 + "null" + p3) == p1 + "\"\"" + p2 + "\"\"" + p3
  {
    assert p1 + "null" + p2 + "null" + p3 == p1 + "null" + (p2 + "null" + p3);
    NormalizeSplit(p1, p2 + "null" + p3);
    NormalizeSplit(p2, p3);
    NormalizeIdentity(p1);
    NormalizeIdentity(p2);
    NormalizeIdentity(p3);
  }

  /** A text without the letter `u` is null-free. */
  lemma NullFreeLiteral(s: string)
    requires forall i :: 0 <= i < |s| ==> s[i] != 'u'
    ensures NullFree(s)
  {
  }

  /** newImgJson: normalise, then decode with `unmarshal`, passing its error
      on. Text without `null` is decoded as it is. */
  function NewImgJson(src: string, unmarshal: string -> Result<Image, string>): (r: Result<Image, string>)
    ensures NullFree(src) ==> r == unmarshal(src)
  {
    if NullFree(src) then
      NormalizeIdentity(src);
      unmarshal(Normalize(src))
    else
      unmarshal(Normalize(src))
  }

  /** The decoder only ever sees null-free text: two decoders that agree on
      null-free text give the same result on every input. */
  lemma NewImgJsonOnlyNullFreeReachesDecoder(src: string, u1: string -> Result<Image, string>, u2: string -> Result<Image, string>)
    requires forall t :: NullFree(t) ==> u1(t) == u2(t)
    ensures NewImgJson(src, u1) == NewImgJson(src, u2)
  {
    NormalizeNullFree(src);
  }

  /** One call of `json.Decoder.Decode`: a record, end of stream, or an error. */
  datatype DecodeStep = Record(image: Image) | EndOfStream | Malformed(error: string)

  /** The `i`-th result of the decoder over `steps`; a stream whose listed
      results are used up reports end of stream. */
  function StepAt(steps: seq<DecodeStep>, i: nat): DecodeStep
  {
    if i < |steps| then steps[i] else EndOfStream
  }

  /** The result of decoding a whole stream: the records before the first
      end of stream, or the first error. */
  function DecodeAll(steps: seq<DecodeStep>): Result<seq<Image>, string>
    decreases |steps|
  {
    if steps == [] then Success([])
    else match steps[0]
      case EndOfStream => Success([])
      case Malformed(e) => Failure(e)
      case Record(img) =>
        match DecodeAll(steps[1..])
        case Success(rest) => Success([img] + rest)
        case Failure(e) => Failure(e)
  }

  /** Index of the first result that is not a record. */
  function FirstStop(steps: seq<DecodeStep>): (k: nat)
    ensures k <= |steps|
    ensures forall j :: 0 <= j < k ==> steps[j].Record?
    ensures k < |steps| ==> !steps[k].Record?
  {
    if steps == [] || !steps[0].Record? then 0 else 1 + FirstStop(steps[1..])
  }

  /** The images of a run of records. */
  function RecordImages(steps: seq<DecodeStep>): (r: seq<Image>)
    requires forall j :: 0 <= j < |steps| ==> steps[j].Record?
    ensures |r| == |steps|
    ensures forall j :: 0 <= j < |steps| ==> r[j] == steps[j].image
  {
    if steps == [] then [] else [steps[0].image] + RecordImages(steps[1..])
  }

  /** DecodeAll succeeds exactly when the records end at end of stream, and
      then yields exactly one entry per record, in order; otherwise it yields
      nothing but the first error. */
  lemma {:induction false} DecodeAllCharacterised(steps: seq<DecodeStep>)
    ensures var k := FirstStop(steps);
      && (DecodeAll(steps).Success? <==> StepAt(steps, k).EndOfStream?)
      && (DecodeAll(steps).Success? ==> DecodeAll(steps).value == RecordImages(steps[..k]))
      && (DecodeAll(steps).Failure? ==> DecodeAll(steps).error == StepAt(steps, k).error)
    decreases |steps|
  {
    if steps != [] && steps[0].Record? {
      DecodeAllCharacterised(steps[1..]);
      var k := FirstStop(steps);
      assert steps[..k][1..] == steps[1..][..k - 1];
    }
  }

  /** The loop of newMultipleImgJson: decode until end of stream, collecting
      one entry per record; any error discards what was collected. */
  method DecodeStream(steps: seq<DecodeStep>) returns (r: Result<seq<Image>, string>)
    ensures r == DecodeAll(steps)
  {
    var acc: seq<Image> := [];
    var i := 0;
    assert steps[i..] == steps;
    assert forall rest: seq<Image> :: acc + rest == rest;
    while true
      invariant 0 <= i <= |steps|
      invariant DecodeAll(steps) == Prepend(acc, DecodeAll(steps[i..]))
      decreases |steps| - i
    {
      var step := StepAt(steps, i);
      assert i < |steps| ==> steps[i..][0] == steps[i];
      match step
      case EndOfStream =>
        assert acc + [] == acc;
        return Success(acc);
      case Malformed(e) =>
        return Failure(e);
      case Record(img) =>
        assert steps[i..][1..] == steps[i + 1..];
        assert DecodeAll(steps[i..]) == Prepend([img], DecodeAll(steps[i + 1..]));
        assert forall rest: seq<Image> :: acc + ([img] + rest) == (acc + [img]) + rest;
        acc := acc + [img];
        i := i + 1;
    }
  }

  /** Prefix a successful result with `prefix`; errors pass unchanged. */
  function Prepend(prefix: seq<Image>, r: Result<seq<Image>, string>): Result<seq<Image>, string>
  {
    match r
    case Success(rest) => Success(prefix + rest)
    case Failure(e) => Failure(e)
  }

  /** newMultipleImgJson: normalise the whole manifest, then decode it as a
      stream; `split` gives the decoder's successive results on a text. */
  method NewMultipleImgJson(src: string, split: string -> seq<DecodeStep>) returns (r: Result<seq<Image>, string>)
    ensures r == DecodeAll(split(Normalize(src)))
  {
    r := DecodeStream(split(Normalize(src)));
  }
}
