/** The stored records and the small string helpers every other module shares.
    A Go string field that is unset is the empty string, as in the source. */
module Records {

  datatype Option<+T> = None | Some(value: T)

  /** How a call into a cloud, into vManage or into Kubernetes can end.  `Lost` is the case a caller
      cannot tell from `Refused`: the call took effect, but its reply was an error. */
  datatype Reply = Done | Refused | Lost {
    predicate TookEffect() { !Refused? }
  }

  /** A sequence of calls, and how each of them ends; none from the n-th up to the m-th fails. */
  ghost predicate SmoothBetween(replies: nat -> Reply, n: nat, m: nat) {
    forall i: nat :: n <= i < m ==> replies(i).Done?
  }

  const RUNNING := "Running"
  const PENDING := "Pending"
  const FAILED := "Failed"
  const WATCHING := "Watching"

  const VPC := "vpc"
  const VPN := "vpn"
  const TAG := "tag"
  const SUBNET := "subnet"

  /** What a request says about one side: an id, a name or a set of labels. */
  datatype Selector = Selector(id: string, name: string, labels: map<string, string>)

  datatype Spec = Spec(source: Selector, destination: Selector)

  datatype Source = Source(
    id: string,
    name: string,
    siteId: string,
    featureTemplateId: string,
    kind: string,
    provider: string,
    networks: seq<string>,
    tag: string,
    region: string)

  datatype Destination = Destination(
    dbId: string,
    name: string,
    siteId: string,
    id: string,
    kind: string,
    provider: string,
    defaultAccess: string,
    tag: string,
    region: string)

  /** A network domain connection, as the database keeps it. */
  datatype ConnectionRequest = ConnectionRequest(
    id: string,
    name: string,
    status: string,
    source: Source,
    destination: Destination,
    config: Spec,
    creationTimestamp: string,
    modificationTimestamp: string)

  /** The key under which a connection between two domains is stored. */
  function PairId(source: string, destination: string): string {
    source + ":" + destination
  }

  /** When the source id has no colon, the key gives both ends back. */
  lemma PairIdInjective(s: string, d: string, s': string, d': string)
    requires ':' !in s && ':' !in s'
    requires PairId(s, d) == PairId(s', d')
    ensures s == s' && d == d'
  {
    var p := PairId(s, d);
    assert p[|s|] == ':' && p[|s'|] == ':';
    assert forall i :: 0 <= i < |s| ==> p[i] == s[i];
    assert forall i :: 0 <= i < |s'| ==> p[i] == s'[i];
    assert |s| == |s'|;
    assert p[..|s|] == s && PairId(s', d')[..|s'|] == s';
    assert p[|s| + 1..] == d && PairId(s', d')[|s'| + 1..] == d';
  }

  function LowerChar(c: char): char {
    if 'A' <= c <= 'Z' then (c as int + 32) as char else c
  }

  function UpperChar(c: char): char {
    if 'a' <= c <= 'z' then (c as int - 32) as char else c
  }

  function ToLower(s: string): (r: string)
    ensures |r| == |s|
  {
    seq(|s|, i requires 0 <= i < |s| => LowerChar(s[i]))
  }

  function ToUpper(s: string): (r: string)
    ensures |r| == |s|
  {
    seq(|s|, i requires 0 <= i < |s| => UpperChar(s[i]))
  }

  lemma LettersLower()
    ensures ToLower("ABCDEFGHIJKLMNOPQRSTUVWXYZ") == "abcdefghijklmnopqrstuvwxyz"
  {
    assert |ToLower("ABCDEFGHIJKLMNOPQRSTUVWXYZ")| == |"abcdefghijklmnopqrstuvwxyz"|;
  }

  lemma LettersUpper()
    ensures ToUpper("abcdefghijklmnopqrstuvwxyz") == "ABCDEFGHIJKLMNOPQRSTUVWXYZ"
  {
    assert |ToUpper("abcdefghijklmnopqrstuvwxyz")| == |"ABCDEFGHIJKLMNOPQRSTUVWXYZ"|;
  }

  /** Lowering leaves no capital, keeps what is none, and changes a string exactly if it has one. */
  lemma LoweredHasNoCapital(s: string)
    ensures forall c :: c in ToLower(s) ==> !('A' <= c <= 'Z')
    ensures forall i :: 0 <= i < |s| && !('A' <= s[i] <= 'Z') ==> ToLower(s)[i] == s[i]
    ensures ToLower(s) == s <==> forall c :: c in s ==> !('A' <= c <= 'Z')
  {
    if ToLower(s) == s {
      forall c | c in s ensures !('A' <= c <= 'Z') {
        var i :| 0 <= i < |s| && s[i] == c;
        assert ToLower(s)[i] == LowerChar(c);
      }
    }
    if forall c :: c in s ==> !('A' <= c <= 'Z') {
      forall i | 0 <= i < |s| ensures ToLower(s)[i] == s[i] {
        assert s[i] in s;
      }
    }
  }

  /** The elements of a list, duplicates forgotten. */
  function Elements<T>(xs: seq<T>): set<T> {
    set x | x in xs
  }

  lemma ElementsAppend<T>(xs: seq<T>, x: T)
    ensures Elements(xs + [x]) == Elements(xs) + {x}
  {
  }

  /** A request is handed on by reference, and its receiver changes it. */
  class RequestCell {
    var value: ConnectionRequest

    constructor (value: ConnectionRequest)
      ensures this.value == value
    {
      this.value := value;
    }
  }
}
