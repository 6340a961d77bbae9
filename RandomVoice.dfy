/** `random_voice_picker.py`: the voice table grouped by lower-cased gender, and a
    case-insensitive random pick from a gender's group. */
module RandomVoice {
  import opened Text
  import opened Report

  datatype Voice = Voice(name: string, gender: string)

  /** `voices`. */
  const Voices: seq<Voice> := [
    Voice("bn-BD-NabanitaNeural", "Female"),
    Voice("bn-BD-PradeepNeural", "Male"),
    Voice("bn-IN-BashkarNeural", "Male"),
    Voice("bn-IN-TanishaaNeural", "Female")
  ]

  /** The names of the voices whose lower-cased gender is `g`, in table order. */
  function NamesOf(voices: seq<Voice>, g: string): (r: seq<string>)
    ensures |r| <= |voices|
  {
    if voices == [] then []
    else NamesOf(voices[..|voices| - 1], g)
         + if Lower(voices[|voices| - 1].gender) == g then [voices[|voices| - 1].name] else []
  }

  /** The lower-cased genders occurring in `voices`. */
  function Genders(voices: seq<Voice>): set<string> {
    set v | v in voices :: Lower(v.gender)
  }

  lemma GendersAppend(voices: seq<Voice>, v: Voice)
    ensures Genders(voices + [v]) == Genders(voices) + {Lower(v.gender)}
  {
    assert forall w :: w in voices + [v] <==> w in voices || w == v;
  }

  /** The module-level loop `voices_by_gender.setdefault(g, []).append(v["name"])`. */
  method BuildBuckets(voices: seq<Voice>) returns (voicesByGender: map<string, seq<string>>)
    ensures voicesByGender.Keys == Genders(voices)
    ensures forall g :: g in voicesByGender ==> voicesByGender[g] == NamesOf(voices, g)
  {
    voicesByGender := map[];
    var i := 0;
    while i < |voices|
      invariant 0 <= i <= |voices|
      invariant Grouped(voicesByGender, voices[..i])
    {
      var v := voices[i];
      var g := Lower(v.gender);
      var bucket := if g in voicesByGender then voicesByGender[g] else [];
      BucketStepAt(voices, i, voicesByGender, g, bucket);
      voicesByGender := voicesByGender[g := bucket + [v.name]];
      i := i + 1;
    }
    GroupedAll(voicesByGender, voices);
  }

  lemma BucketStepAt(voices: seq<Voice>, i: nat, m: map<string, seq<string>>, g: string, bucket: seq<string>)
    requires i < |voices| && Grouped(m, voices[..i])
    requires g == Lower(voices[i].gender) && bucket == if g in m then m[g] else []
    ensures Grouped(m[g := bucket + [voices[i].name]], voices[..i + 1])
  {
    BucketStep(voices[..i], voices[i], m);
    assert voices[..i + 1] == voices[..i] + [voices[i]];
  }

  lemma GroupedAll(m: map<string, seq<string>>, voices: seq<Voice>)
    requires Grouped(m, voices[..|voices|])
    ensures m.Keys == Genders(voices)
    ensures forall g :: g in m ==> m[g] == NamesOf(voices, g)
  {
    assert voices[..|voices|] == voices;
  }

  /** `m` buckets the names of `seen` by lower-cased gender. */
  predicate Grouped(m: map<string, seq<string>>, seen: seq<Voice>) {
    m.Keys == Genders(seen) && forall g :: g in m ==> m[g] == NamesOf(seen, g)
  }

  lemma NamesOfAppend(voices: seq<Voice>, v: Voice, g: string)
    ensures NamesOf(voices + [v], g) == NamesOf(voices, g) + if Lower(v.gender) == g then [v.name] else []
  {
    assert (voices + [v])[..|voices|] == voices;
  }

  /** One `setdefault(g, []).append(name)` keeps the buckets equal to the grouping of the
      voices seen so far. */
  lemma BucketStep(seen: seq<Voice>, v: Voice, m: map<string, seq<string>>)
    requires Grouped(m, seen)
    ensures var g := Lower(v.gender);
            Grouped(m[g := (if g in m then m[g] else []) + [v.name]], seen + [v])
  {
    var g := Lower(v.gender);
    GendersAppend(seen, v);
    if g !in m {
      NamesOfAbsent(seen, g);
    }
    forall h
      ensures NamesOf(seen + [v], h) == NamesOf(seen, h) + if g == h then [v.name] else []
    {
      NamesOfAppend(seen, v, h);
    }
  }

  lemma {:induction false} NamesOfAbsent(voices: seq<Voice>, g: string)
    requires g !in Genders(voices)
    ensures NamesOf(voices, g) == []
    decreases |voices|
  {
    if voices != [] {
      var init := voices[..|voices| - 1];
      assert voices == init + [voices[|voices| - 1]];
      GendersAppend(init, voices[|voices| - 1]);
      NamesOfAbsent(init, g);
    }
  }

  /** A gender's bucket lists exactly that gender's voices, in table order; every voice
      is in the bucket of its own lower-cased gender and in no other. */
  lemma {:induction false} NamesOfExactly(voices: seq<Voice>, g: string, name: string)
    ensures name in NamesOf(voices, g) <==> exists v :: v in voices && v.name == name && Lower(v.gender) == g
    decreases |voices|
  {
    if voices != [] {
      var init := voices[..|voices| - 1];
      var last := voices[|voices| - 1];
      assert voices == init + [last];
      NamesOfExactly(init, g, name);
      if name in NamesOf(voices, g) && name !in NamesOf(init, g) {
        assert last in voices;
      }
      if !(name in NamesOf(init, g)) && exists v :: v in voices && v.name == name && Lower(v.gender) == g {
        var v :| v in voices && v.name == name && Lower(v.gender) == g;
        assert v !in init;
        assert v == last;
      }
    }
  }

  /** The bucket `get_random_voice` draws from: the one of the lower-cased gender, empty if absent. */
  function Bucket(voicesByGender: map<string, seq<string>>, gender: string): seq<string> {
    var g := Lower(gender);
    if g in voicesByGender then voicesByGender[g] else []
  }

  /** `get_random_voice`: a voice from the gender's bucket, `random.choice` being any
      element; `ValueError` when the bucket is missing or empty. */
  method GetRandomVoice(voicesByGender: map<string, seq<string>>, gender: string) returns (r: Raised<string>)
    ensures Bucket(voicesByGender, gender) == [] <==> r == Raised("No voices available for gender '" + gender + "'")
    ensures Bucket(voicesByGender, gender) != [] ==> r.Returned? && r.value in Bucket(voicesByGender, gender)
  {
    var g := Lower(gender);
    if g !in voicesByGender || voicesByGender[g] == [] {
      return Raised("No voices available for gender '" + gender + "'");
    }
    var choices := voicesByGender[g];
    assert choices[0] in choices;
    var name :| name in choices;
    r := Returned(name);
  }

  /** The lookup ignores the case of the gender argument. */
  lemma BucketCaseInsensitive(voicesByGender: map<string, seq<string>>, gender: string)
    ensures Bucket(voicesByGender, gender) == Bucket(voicesByGender, Lower(gender))
  {
    LowerIdempotent(gender);
  }

  /** The shipped table: two voices per gender, nothing for other genders. */
  lemma ShippedBuckets()
    ensures Genders(Voices) == {"female", "male"}
    ensures NamesOf(Voices, "female") == ["bn-BD-NabanitaNeural", "bn-IN-TanishaaNeural"]
    ensures NamesOf(Voices, "male") == ["bn-BD-PradeepNeural", "bn-IN-BashkarNeural"]
  {
    ShippedGenders();
    ShippedGroup("female");
    ShippedGroup("male");
  }

  lemma ShippedGenders()
    ensures Lower(Voices[0].gender) == "female" && Lower(Voices[3].gender) == "female"
    ensures Lower(Voices[1].gender) == "male" && Lower(Voices[2].gender) == "male"
    ensures Genders(Voices) == {"female", "male"}
  {
    assert Lower("Female") == "female";
    assert Lower("Male") == "male";
  }

  lemma ShippedGroup(g: string)
    requires Lower(Voices[0].gender) == "female" && Lower(Voices[3].gender) == "female"
    requires Lower(Voices[1].gender) == "male" && Lower(Voices[2].gender) == "male"
    ensures NamesOf(Voices, g) ==
              (if "female" == g then [Voices[0].name] else []) + (if "male" == g then [Voices[1].name] else [])
              + (if "male" == g then [Voices[2].name] else []) + (if "female" == g then [Voices[3].name] else [])
  {
    var v := Voices;
    assert v == [] + [v[0]] + [v[1]] + [v[2]] + [v[3]];
    NamesOfAppend([], v[0], g);
    NamesOfAppend([v[0]], v[1], g);
    NamesOfAppend([v[0], v[1]], v[2], g);
    NamesOfAppend([v[0], v[1], v[2]], v[3], g);
  }
}
