/**
  Turning the ranked search results into the choices of the selection prompt: every
  result object gets a `description` (one `key: value` line per property), a `value`
  (the object itself, which is what the prompt answers with) and a `title` (its file
  name, shortened when long), added in place.
 */
module Labelling {
  import opened Wrappers
  import opened Records

  const TitleMax: nat := 75
  const TitleKeep: nat := 70
  const LinkMax: nat := 60
  const LinkKeep: nat := 55
  const Ellipsis: string := "..."

  /** `s` itself when at most `max` characters long, otherwise its first `keep`
      characters followed by an ellipsis. */
  function Abbreviate(s: string, max: nat, keep: nat): (t: string)
    requires keep + |Ellipsis| <= max
    ensures |t| <= max
    ensures t == s <==> |s| <= max
    ensures |s| > max ==> |t| == keep + |Ellipsis| && t[..keep] == s[..keep] && t[keep..] == Ellipsis
  {
    if |s| > max then s[..keep] + Ellipsis else s
  }

  /** The title shown for a file name: at most 75 characters; a longer name shows its
      first 70 characters and "...", 73 characters in all. */
  function TitleText(name: string): (t: string)
    ensures |t| <= TitleMax
    ensures t == name <==> |name| <= TitleMax
    ensures |name| > TitleMax ==> |t| == 73 && t[..70] == name[..70] && t[70..] == "..."
  {
    Abbreviate(name, TitleMax, TitleKeep)
  }

  /** `item.fileName.length > 75 ? ... : item.fileName`. A number has no `length`, so
      the comparison is false and the number itself is the title; reading `length` of
      `undefined` or `null` throws. */
  function Title(fileName: Value): (r: Result<Value, Error>)
    requires !fileName.SelfRef?
    ensures r.Failure? <==> fileName.Nullish()
    ensures r.Failure? ==> r.error == TypeError("length")
    ensures fileName.Str? ==> r == Success(Str(TitleText(fileName.s)))
    ensures fileName.Int? ==> r == Success(fileName)
  {
    match fileName
    case Str(s) => Success(Str(TitleText(s)))
    case Int(_) => Success(fileName)
    case Undefined => Failure(TypeError("length"))
    case Null => Failure(TypeError("length"))
  }

  /** The description line of one property. Only a `link` string longer than 60
      characters is shortened (to 55 characters and "..."); a `link` that is `undefined`
      or `null` makes reading its `length` throw. */
  function Line(p: Prop): (r: Result<string, Error>)
    requires !p.value.SelfRef?
    ensures r.Failure? <==> p.key == "link" && p.value.Nullish()
    ensures r.Success? ==> |r.value| >= |p.key| + 2 && r.value[..|p.key| + 2] == p.key + ": "
    ensures p.key == "link" && p.value.Str? && |p.value.s| > LinkMax ==>
              r == Success("link: " + p.value.s[..LinkKeep] + Ellipsis)
    ensures r.Success? && !(p.key == "link" && p.value.Str? && |p.value.s| > LinkMax) ==>
              r.value == p.key + ": " + Render(p.value)
    ensures r.Success? && p.key == "link" && p.value.Str? ==> |r.value| <= |"link: "| + LinkMax
  {
    if p.key == "link" && p.value.Nullish() then Failure(TypeError("length"))
    else if p.key == "link" && p.value.Str? then
      var shown := Abbreviate(p.value.s, LinkMax, LinkKeep);
      assert |p.value.s| > LinkMax ==>
        p.key + ": " + shown == "link: " + p.value.s[..LinkKeep] + Ellipsis;
      Success(p.key + ": " + shown)
    else Success(p.key + ": " + Render(p.value))
  }

  /** The description lines of a record, one per property in key order; the first
      property whose line throws stops the whole description. */
  function DescribeLines(r: Record): (res: Result<seq<string>, Error>)
    requires Plain(r)
    ensures res.Failure? ==> res.error == TypeError("length")
  {
    if r == [] then Success([])
    else
      match Line(r[0])
      case Failure(e) => Failure(e)
      case Success(first) =>
        match DescribeLines(r[1..])
        case Failure(e) => Failure(e)
        case Success(rest) => Success([first] + rest)
  }

  /** The description exists exactly when no line throws, and then holds every line,
      in key order. */
  lemma {:induction false} DescribeLinesSpec(r: Record)
    requires Plain(r)
    ensures DescribeLines(r).Success? <==> forall i :: 0 <= i < |r| ==> Line(r[i]).Success?
    ensures DescribeLines(r).Success? ==>
              |DescribeLines(r).value| == |r| && forall i :: 0 <= i < |r| ==> Line(r[i]) == Success(DescribeLines(r).value[i])
  {
    if r != [] {
      DescribeLinesSpec(r[1..]);
      assert forall i :: 1 <= i < |r| ==> r[i] == r[1..][i - 1];
    }
  }

  /** `lines.join(sep)`. */
  function Join(lines: seq<string>, sep: string): string {
    if lines == [] then ""
    else if |lines| == 1 then lines[0]
    else lines[0] + sep + Join(lines[1..], sep)
  }

  /** The summed length of `lines`. */
  function TotalLength(lines: seq<string>): nat {
    if lines == [] then 0 else |lines[0]| + TotalLength(lines[1..])
  }

  /** The joined text is as long as its lines together plus one separator between
      each two neighbouring lines. */
  lemma {:induction false} JoinLength(lines: seq<string>, sep: string)
    ensures |Join(lines, sep)| == TotalLength(lines) + (if lines == [] then 0 else (|lines| - 1) * |sep|)
  {
    if |lines| > 1 {
      JoinLength(lines[1..], sep);
      assert lines[1..][1..] == lines[2..];
    }
  }

  /** Joining one more line appends the separator and that line to the text joined
      so far: each line appears whole, in order, with one separator between
      neighbours. */
  lemma {:induction false} JoinSnoc(lines: seq<string>, l: string, sep: string)
    requires lines != []
    ensures Join(lines + [l], sep) == Join(lines, sep) + sep + l
  {
    if |lines| > 1 {
      assert (lines + [l])[1..] == lines[1..] + [l];
      JoinSnoc(lines[1..], l, sep);
    } else {
      assert lines + [l] == [lines[0], l];
      assert [lines[0], l][1..] == [l];
    }
  }

  /** What the selection prompt shows for one result. */
  datatype Choice = Choice(title: Value, description: string)

  /** The choice a plain result is labelled with, or the TypeError its labelling throws:
      the description is built first, the title second. */
  function ChoiceOf(r: Record): (res: Result<Choice, Error>)
    requires Plain(r)
    ensures res.Failure? ==> res.error == TypeError("length")
  {
    match DescribeLines(r)
    case Failure(e) => Failure(e)
    case Success(lines) =>
      match Title(Get(r, "fileName"))
      case Failure(e) => Failure(e)
      case Success(t) => Success(Choice(t, Join(lines, "\n")))
  }

  /** Labelling a result throws exactly when one of its description lines throws or its
      file name is `undefined` or `null`; otherwise the choice carries the joined lines
      and the (possibly shortened) file name. */
  lemma ChoiceOfSpec(r: Record)
    requires Plain(r)
    ensures ChoiceOf(r).Failure? <==> (exists i :: 0 <= i < |r| && Line(r[i]).Failure?) || Get(r, "fileName").Nullish()
    ensures ChoiceOf(r).Success? ==> ChoiceOf(r).value.description == Join(DescribeLines(r).value, "\n")
    ensures ChoiceOf(r).Success? ==> Title(Get(r, "fileName")) == Success(ChoiceOf(r).value.title)
  {
    DescribeLinesSpec(r);
  }

  /** The title and description properties, as the prompt reads them. */
  function ShownAs(r: Record): Choice {
    Choice(Get(r, "title"), Render(Get(r, "description")))
  }

  /** The description throws exactly when the object has an own `link` property that
      is `undefined` or `null`; an object without `link` is described without error. */
  lemma DescriptionThrows(r: Record)
    requires Plain(r) && DistinctKeys(r)
    ensures DescribeLines(r).Failure? <==> Lookup(r, "link").Some? && Lookup(r, "link").value.Nullish()
  {
    LookupSpec(r, "link");
    DescribeLinesSpec(r);
    if DescribeLines(r).Failure? {
      var i :| 0 <= i < |r| && Line(r[i]).Failure?;
      LookupAt(r, i);
    }
  }

  /** The record once labelled with `ch`: description, value and title set in this order. */
  function Labelled(r: Record, ch: Choice): (r': Record)
    ensures ShownAs(r') == ch
    ensures Get(r', "value") == SelfRef
  {
    var described := Set(r, "description", Str(ch.description));
    var valued := Set(described, "value", SelfRef);
    var titled := Set(valued, "title", ch.title);
    SetFrame(described, "value", SelfRef, "description");
    SetFrame(valued, "title", ch.title, "description");
    SetFrame(valued, "title", ch.title, "value");
    titled
  }

  /** Labelling changes no property other than the three it sets. */
  lemma LabelledKeeps(r: Record, ch: Choice, k: string)
    requires k != "description" && k != "value" && k != "title"
    ensures Lookup(Labelled(r, ch), k) == Lookup(r, k)
    ensures Get(Labelled(r, ch), k) == Get(r, k)
  {
    var described := Set(r, "description", Str(ch.description));
    var valued := Set(described, "value", SelfRef);
    SetFrame(r, "description", Str(ch.description), k);
    SetFrame(described, "value", SelfRef, k);
    SetFrame(valued, "title", ch.title, k);
  }

  /** Labelling keeps the keys of an object distinct. */
  lemma LabelledKeepsDistinct(r: Record, ch: Choice)
    requires DistinctKeys(r)
    ensures DistinctKeys(Labelled(r, ch))
  {
    var r1 := Set(r, "description", Str(ch.description));
    SetKeepsDistinct(r, "description", Str(ch.description));
    SetKeepsDistinct(r1, "value", SelfRef);
    SetKeepsDistinct(Set(r1, "value", SelfRef), "title", ch.title);
  }

  /** Labels every result in order; the first one whose labelling throws stops the map. */
  function Choices(cs: seq<Record>): (res: Result<seq<Choice>, Error>)
    requires forall i :: 0 <= i < |cs| ==> Plain(cs[i])
  {
    if cs == [] then Success([])
    else
      match ChoiceOf(cs[0])
      case Failure(e) => Failure(e)
      case Success(first) =>
        match Choices(cs[1..])
        case Failure(e) => Failure(e)
        case Success(rest) => Success([first] + rest)
  }

  /** The choices are the labels of the results, one for one and in order, and they
      exist exactly when no result's labelling throws. */
  lemma ChoicesSpec(cs: seq<Record>)
    requires forall i :: 0 <= i < |cs| ==> Plain(cs[i])
    ensures Choices(cs).Success? <==> forall i :: 0 <= i < |cs| ==> ChoiceOf(cs[i]).Success?
    ensures Choices(cs).Success? ==>
              |Choices(cs).value| == |cs| && forall i :: 0 <= i < |cs| ==> ChoiceOf(cs[i]) == Success(Choices(cs).value[i])
  {
    ChoicesLabels(cs);
    if forall i :: 0 <= i < |cs| ==> ChoiceOf(cs[i]).Success? {
      ChoicesAll(cs, seq(|cs|, i requires 0 <= i < |cs| => ChoiceOf(cs[i]).value));
    }
  }

  /** When the map succeeds, its choices are the labels of the results, in order. */
  lemma {:induction false} ChoicesLabels(cs: seq<Record>)
    requires forall i :: 0 <= i < |cs| ==> Plain(cs[i])
    ensures Choices(cs).Success? ==>
              |Choices(cs).value| == |cs| && forall i :: 0 <= i < |cs| ==> ChoiceOf(cs[i]) == Success(Choices(cs).value[i])
  {
    if cs != [] && Choices(cs).Success? {
      var tail := cs[1..];
      ChoicesLabels(tail);
      var choices := Choices(cs).value;
      assert choices[1..] == Choices(tail).value;
      forall i | 1 <= i < |cs|
        ensures ChoiceOf(cs[i]) == Success(choices[i])
      {
        assert cs[i] == tail[i - 1] && choices[i] == choices[1..][i - 1];
      }
    }
  }

  /** A search result as the JavaScript object the prompt's `choices` map extends. */
  class Item {
    var props: Record

    constructor (c: Record)
      ensures props == c
    {
      props := c;
    }

    /** The body of the `choices` map callback. A TypeError thrown while computing the
        description leaves the object untouched; one thrown while computing the title
        leaves description and value already assigned. */
    method Label() returns (r: Result<(), Error>)
      requires Plain(props)
      modifies this
      ensures r.Failure? <==> ChoiceOf(old(props)).Failure?
      ensures r.Failure? ==> r.error == ChoiceOf(old(props)).error
      ensures r.Success? ==> props == Labelled(old(props), ChoiceOf(old(props)).value)
      ensures DescribeLines(old(props)).Failure? ==> props == old(props)
      ensures DescribeLines(old(props)).Success? && r.Failure? ==>
                props == Set(Set(old(props), "description", Str(Join(DescribeLines(old(props)).value, "\n"))), "value", SelfRef)
    {
      var lines := DescribeLines(props);
      if lines.Failure? {
        return Failure(lines.error);
      }
      props := Set(props, "description", Str(Join(lines.value, "\n")));
      props := Set(props, "value", SelfRef);
      SetFrame(old(props), "description", Str(Join(lines.value, "\n")), "fileName");
      SetFrame(Set(old(props), "description", Str(Join(lines.value, "\n"))), "value", SelfRef, "fileName");
      var fileName := Get(props, "fileName");
      var title := Title(fileName);
      if title.Failure? {
        assert ChoiceOf(old(props)) == Failure(title.error);
        return Failure(title.error);
      }
      props := Set(props, "title", title.value);
      ghost var ch := Choice(title.value, Join(lines.value, "\n"));
      assert ChoiceOf(old(props)) == Success(ch);
      assert props == Labelled(old(props), ch);
      r := Success(());
    }
  }

  /** `torrents.map(item => { ...; return item; })`: labels every ranked result in
      place, in order, and stops at the first that throws. */
  method BuildChoices(torrents: seq<Record>) returns (items: seq<Item>, r: Result<seq<Choice>, Error>)
    requires forall i :: 0 <= i < |torrents| ==> Plain(torrents[i])
    ensures r == Choices(torrents)
    ensures r.Success? ==> |items| == |torrents| == |r.value|
    ensures r.Success? ==> forall k :: 0 <= k < |items| ==> items[k].props == Labelled(torrents[k], r.value[k])
    ensures r.Success? ==> forall k :: 0 <= k < |items| ==> ShownAs(items[k].props) == r.value[k]
  {
    items := [];
    ghost var done: seq<Record> := [];
    var shown: seq<Choice> := [];
    var k := 0;
    while k < |torrents|
      invariant 0 <= k <= |torrents|
      invariant |items| == k && |done| == k && |shown| == k
      invariant forall j :: 0 <= j < k ==> items[j].props == done[j]
      invariant LabelledUpTo(torrents, shown, done)
    {
      var item := new Item(torrents[k]);
      var labelled := item.Label();
      if labelled.Failure? {
        ChoicesFailAt(torrents, k);
        return items, Failure(labelled.error);
      }
      var ch := ShownAs(item.props);
      LabelledOneMore(torrents, shown, done, ch);
      done := done + [item.props];
      shown := shown + [ch];
      items := items + [item];
      k := k + 1;
    }
    ChoicesAll(torrents, shown);
    r := Success(shown);
  }

  /** `r` labels without error as `c`, and `d` is `r` once labelled. */
  ghost predicate LabelledAs(r: Record, c: Choice, d: Record)
    requires Plain(r)
  {
    ChoiceOf(r) == Success(c) && d == Labelled(r, c)
  }

  /** The first `|shown|` results are labelled without error as `shown`, and `done`
      holds them once labelled. */
  ghost predicate LabelledUpTo(torrents: seq<Record>, shown: seq<Choice>, done: seq<Record>)
    requires forall i :: 0 <= i < |torrents| ==> Plain(torrents[i])
  {
    && |shown| == |done| <= |torrents|
    && forall j :: 0 <= j < |shown| ==> LabelledAs(torrents[j], shown[j], done[j])
  }

  lemma LabelledOneMore(torrents: seq<Record>, shown: seq<Choice>, done: seq<Record>, ch: Choice)
    requires forall i :: 0 <= i < |torrents| ==> Plain(torrents[i])
    requires LabelledUpTo(torrents, shown, done) && |shown| < |torrents|
    requires ChoiceOf(torrents[|shown|]) == Success(ch)
    ensures LabelledUpTo(torrents, shown + [ch], done + [Labelled(torrents[|shown|], ch)])
  {
    var k := |shown|;
    var shown', done' := shown + [ch], done + [Labelled(torrents[k], ch)];
    assert LabelledAs(torrents[k], shown'[k], done'[k]);
    forall j | 0 <= j < k
      ensures LabelledAs(torrents[j], shown'[j], done'[j])
    {
      assert shown'[j] == shown[j] && done'[j] == done[j];
    }
  }

  /** Labelling raises nothing but the TypeError on `length`. */
  lemma {:induction false} ChoicesError(cs: seq<Record>)
    requires forall i :: 0 <= i < |cs| ==> Plain(cs[i])
    ensures Choices(cs).Failure? ==> Choices(cs) == Failure(TypeError("length"))
  {
    if cs != [] && ChoiceOf(cs[0]).Success? {
      ChoicesError(cs[1..]);
    }
  }

  /** One result whose labelling throws makes the whole map throw. */
  lemma {:induction false} ChoicesFailAt(cs: seq<Record>, k: nat)
    requires forall i :: 0 <= i < |cs| ==> Plain(cs[i])
    requires k < |cs| && ChoiceOf(cs[k]).Failure?
    ensures Choices(cs) == Failure(TypeError("length"))
  {
    ChoicesLabels(cs);
    ChoicesError(cs);
  }

  /** Labelling every result without error gives the labels, in order. */
  lemma {:induction false} ChoicesAll(cs: seq<Record>, shown: seq<Choice>)
    requires forall i :: 0 <= i < |cs| ==> Plain(cs[i])
    requires |shown| == |cs| && forall i :: 0 <= i < |cs| ==> ChoiceOf(cs[i]) == Success(shown[i])
    ensures Choices(cs) == Success(shown)
  {
    if cs != [] {
      var tail, rest := cs[1..], shown[1..];
      forall i | 0 <= i < |tail|
        ensures ChoiceOf(tail[i]) == Success(rest[i])
      {
        assert tail[i] == cs[i + 1] && rest[i] == shown[i + 1];
      }
      ChoicesAll(tail, rest);
      assert ChoiceOf(cs[0]) == Success(shown[0]);
      assert shown == [shown[0]] + rest;
    }
  }
}
