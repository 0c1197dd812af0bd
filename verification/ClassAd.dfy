/** The ClassAd of condor_job/classad.hpp: its attribute map, the semantic action that fills
    it, and find_and_parse. */
module ClassAds {
  import opened Text
  import opened Entities
  import opened Grammar

  datatype AdValue = AdValue(kind: string, text: string)

  type Ad = map<string, AdValue>

  /** The value of an attribute, whatever the case of its name. */
  function Get(ad: Ad, key: string): Option<AdValue> {
    if Lower(key) in ad then Some(ad[Lower(key)]) else None
  }

  /** The effect of the action set_attribute: the key is lowered, then key and text are decoded. */
  function Commit(ad: Ad, raw: RawAttribute): Ad {
    ad[Decode(Lower(raw.key)) := AdValue(raw.tag, Decode(raw.text))]
  }

  function CommitAll(ad: Ad, raws: seq<RawAttribute>): Ad {
    if raws == [] then ad
    else Commit(CommitAll(ad, raws[..|raws| - 1]), raws[|raws| - 1])
  }

  /** What find_and_parse finds in a text: a record and its span, or the place from which
      the text has to be kept. */
  datatype Find = Hit(start: nat, stop: nat, ad: Ad) | Miss(start: nat)

  function NextRecord(s: string, first: nat, ad: Ad): (f: Find)
    requires first <= |s|
    ensures first <= f.start <= |s|
    ensures f.Hit? ==> f.start + 7 <= f.stop <= |s|
  {
    var start := SkipToClassad(s, first);
    Found(start, Record(s[start..], 0), ad)
  }

  function Found(start: nat, m: Match<seq<RawAttribute>>, ad: Ad): Find {
    if m.Match? then Hit(start, start + m.stop, CommitAll(ad, m.value)) else Miss(start)
  }

  class ClassAd {
    var attributes: Ad

    constructor ()
      ensures attributes == map[]
    {
      attributes := map[];
    }

    constructor Copy(that: ClassAd)
      ensures attributes == that.attributes
    {
      attributes := that.attributes;
    }

    method SetAttribute(key: string, kind: string, text: string)
      modifies this
      ensures attributes == old(attributes)[Lower(key) := AdValue(kind, text)]
    {
      attributes := attributes[Lower(key) := AdValue(kind, text)];
    }

    /** Keys are looked up without regard to case. */
    function GetAttribute(key: string): (v: Option<AdValue>)
      reads this
      ensures v.Some? <==> Lower(key) in attributes
      ensures v.Some? ==> v.value == attributes[Lower(key)]
    {
      Get(attributes, key)
    }

    /** Unlike SetAttribute, this takes the key as it stands. */
    method RemoveAttribute(key: string)
      modifies this
      ensures attributes == old(attributes) - {key}
    {
      attributes := attributes - {key};
    }

    /** The semantic action: it lowers the key and then runs every row of the entity table
        over both strings. */
    method CommitAttribute(key: string, tag: string, text: string)
      modifies this
      ensures attributes == Commit(old(attributes), RawAttribute(key, tag, text))
    {
      var k, v := Lower(key), text;
      for i := 0 to |MARKS|
        invariant k == DecodePasses(Lower(key), i) && v == DecodePasses(text, i)
        invariant attributes == old(attributes)
      {
        k := ReplaceAll(k, Entity(MARKS[i]), [MARKS[i]]);
        v := ReplaceAll(v, Entity(MARKS[i]), [MARKS[i]]);
      }
      attributes := attributes[k := AdValue(tag, v)];
    }

    /** The star of attributes: the semantic action runs after each attribute that matches. */
    method ParseAttributes(s: string, first: nat) returns (stop: nat)
      requires first <= |s|
      modifies this
      ensures stop == Attributes(s, first).stop
      ensures attributes == CommitAll(old(attributes), Attributes(s, first).value)
    {
      hide Attribute;
      hide Commit;
      stop := first;
      ghost var done: seq<RawAttribute> := [];
      var next := Attribute(s, stop);
      while next.Match?
        invariant first <= stop <= |s| && next == Attribute(s, stop)
        invariant Attributes(s, first).stop == Attributes(s, stop).stop
        invariant Attributes(s, first).value == done + Attributes(s, stop).value
        invariant attributes == CommitAll(old(attributes), done)
        decreases |s| - stop
      {
        CommitAttribute(next.value.key, next.value.tag, next.value.text);
        CommitOneMore(old(attributes), done, next.value);
        assert done + ([next.value] + Attributes(s, next.stop).value)
            == (done + [next.value]) + Attributes(s, next.stop).value;
        done := done + [next.value];
        stop := next.stop;
        next := Attribute(s, stop);
      }
      assert done + [] == done;
    }

    /** Looks for the next record and parses it into a copy, which replaces the attributes
        only when the whole record has matched. */
    method FindAndParse(s: string, first: nat) returns (hit: bool, stop: nat)
      requires first <= |s|
      modifies this
      ensures var f := NextRecord(s, first, old(attributes));
              && hit == f.Hit?
              && stop == (if hit then f.stop else f.start)
              && attributes == (if hit then f.ad else old(attributes))
      ensures var start := NextRecord(s, first, old(attributes)).start;
              && (forall k: nat | first <= k < start && k + 1 < |s| && s[k] == '<' && s[k + 1] == 'c' ::
                    k + 2 < |s| && var c := s[k + 2]; '0' <= c <= '9' || 'a' <= c <= 'z' || 'A' <= c <= 'Z')
              && (start < |s| ==>
                    && start + 1 < |s| && s[start] == '<' && s[start + 1] == 'c'
                    && (start + 2 < |s| ==>
                          var c := s[start + 2]; !('0' <= c <= '9' || 'a' <= c <= 'z' || 'A' <= c <= 'Z')))
    {
      stop := SkipToClassad(s, first);
      SkipStops(s, first, stop);
      var range := s[stop..];
      var opening := Token(range, 0, "<c>");
      if opening.NoMatch? {
        return false, stop;
      }
      var clone := new ClassAd.Copy(this);
      var p := clone.ParseAttributes(range, opening.stop);
      var closing := Token(range, p, "</c>");
      if closing.NoMatch? {
        return false, stop;
      }
      attributes := clone.attributes;
      return true, stop + closing.stop;
    }
  }

  lemma CommitOneMore(ad: Ad, done: seq<RawAttribute>, raw: RawAttribute)
    ensures CommitAll(ad, done + [raw]) == Commit(CommitAll(ad, done), raw)
  {
    assert (done + [raw])[..|done|] == done;
  }
}
