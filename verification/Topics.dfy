/** The default topics derived from an entity's component and unique id. */
module Topics {

  datatype Kind = Discovery | State | Command | Availability

  const HOME_ASSISTANT_PREFIX := "homeassistant"

  function Suffix(kind: Kind): string {
    match kind
    case Discovery => "config"
    case State => "state"
    case Command => "set"
    case Availability => "availability"
  }

  function DefaultTopic(component: string, uniqueId: string, kind: Kind): string {
    HOME_ASSISTANT_PREFIX + "/" + component + "/" + uniqueId + "/" + Suffix(kind)
  }

  predicate SlashFree(s: string) {
    forall i :: 0 <= i < |s| ==> s[i] != '/'
  }

  /** If two slash-terminated heads without inner slashes start equal strings, the heads are equal. */
  lemma FirstSegment(a: string, x: string, b: string, y: string)
    requires SlashFree(a) && SlashFree(b)
    requires a + "/" + x == b + "/" + y
    ensures a == b && x == y
  {
    var s, t := a + "/" + x, b + "/" + y;
    assert s[|a|] == '/' && t[|b|] == '/';
    if |a| < |b| {
      assert false;
    }
    if |b| < |a| {
      assert false;
    }
    assert s[..|a|] == a && t[..|b|] == b;
    assert s[|a| + 1..] == x && t[|b| + 1..] == y;
  }

  /** The same, read from the back. */
  lemma LastSegment(x: string, a: string, y: string, b: string)
    requires SlashFree(a) && SlashFree(b)
    requires x + "/" + a == y + "/" + b
    ensures a == b && x == y
  {
    var s, t := x + "/" + a, y + "/" + b;
    assert s[|x|] == '/' && t[|y|] == '/';
    if |x| < |y| {
      assert false;
    }
    if |y| < |x| {
      assert false;
    }
    assert s[..|x|] == x && t[..|y|] == y;
    assert s[|x| + 1..] == a && t[|y| + 1..] == b;
  }

  lemma SuffixInjective(k: Kind, k': Kind)
    requires Suffix(k) == Suffix(k')
    ensures k == k'
  {
    assert Suffix(k)[0] == Suffix(k')[0];
    assert |Suffix(k)| == |Suffix(k')|;
  }

  const PREFIX := HOME_ASSISTANT_PREFIX + "/"

  lemma SplitDefaultTopic(component: string, uniqueId: string, kind: Kind)
    ensures DefaultTopic(component, uniqueId, kind) == (PREFIX + (component + "/" + uniqueId)) + "/" + Suffix(kind)
    ensures SlashFree(Suffix(kind))
  {
  }

  /** Default topics determine the component, the id and the kind, whatever the ids contain. */
  lemma DefaultTopicInjective(c: string, id: string, k: Kind, c': string, id': string, k': Kind)
    requires SlashFree(c) && SlashFree(c')
    requires DefaultTopic(c, id, k) == DefaultTopic(c', id', k')
    ensures c == c' && id == id' && k == k'
  {
    var x, y := c + "/" + id, c' + "/" + id';
    SplitDefaultTopic(c, id, k);
    SplitDefaultTopic(c', id', k');
    LastSegment(PREFIX + x, Suffix(k), PREFIX + y, Suffix(k'));
    SuffixInjective(k, k');
    assert x == (PREFIX + x)[|PREFIX|..] && y == (PREFIX + y)[|PREFIX|..];
    FirstSegment(c, id, c', id');
  }

  /** The topics as Home Assistant expects them. */
  lemma DefaultTopicsAre(component: string, uniqueId: string)
    ensures DefaultTopic(component, uniqueId, Discovery) == "homeassistant/" + component + "/" + uniqueId + "/config"
    ensures DefaultTopic(component, uniqueId, State) == "homeassistant/" + component + "/" + uniqueId + "/state"
    ensures DefaultTopic(component, uniqueId, Command) == "homeassistant/" + component + "/" + uniqueId + "/set"
    ensures DefaultTopic(component, uniqueId, Availability) ==
            "homeassistant/" + component + "/" + uniqueId + "/availability"
  {
    var middle := "homeassistant/" + component + "/" + uniqueId;
    assert HOME_ASSISTANT_PREFIX + "/" == "homeassistant/";
    assert middle + "/" + "config" == middle + "/config";
    assert middle + "/" + "state" == middle + "/state";
    assert middle + "/" + "set" == middle + "/set";
    assert middle + "/" + "availability" == middle + "/availability";
  }

  /** Slash-free components are needed: two different pairs, one with a slash in its component,
      share every default topic. */
  lemma SlashInComponentCollides(kind: Kind)
    ensures DefaultTopic("a/b", "c", kind) == DefaultTopic("a", "b/c", kind)
  {
    assert "a/b" + "/" + "c" == "a" + "/" + "b/c";
    calc {
      DefaultTopic("a/b", "c", kind);
      HOME_ASSISTANT_PREFIX + "/" + ("a/b" + "/" + "c") + "/" + Suffix(kind);
      HOME_ASSISTANT_PREFIX + "/" + ("a" + "/" + "b/c") + "/" + Suffix(kind);
      DefaultTopic("a", "b/c", kind);
    }
  }
}
