/** Small things several components share. */
module Common {
  datatype Option<+T> = None | Some(value: T)

  type byte = b: int | 0 <= b < 256

  predicate HasSuffix(s: string, suffix: string) {
    |suffix| <= |s| && s[|s| - |suffix|..] == suffix
  }

  /** The first `n` elements, or all of them. */
  function Take<T>(s: seq<T>, n: nat): (r: seq<T>)
    ensures r <= s && |r| == if |s| < n then |s| else n
  {
    if |s| < n then s else s[..n]
  }

  ghost predicate NoDup<T>(s: seq<T>) {
    forall i, j :: 0 <= i < j < |s| ==> s[i] != s[j]
  }

  /** Replies on the wire, by name. */
  ghost predicate Reply(command: string) {
    || command in {"response", "ack", "channel.posted", "channel.data", "channel.created", "channel.joined",
                   "channel.archived", "channel.list", "channel.member_added", "memory.context", "memory.response"}
    || exists x :: command == x + ".response"
  }

  lemma ResponseSuffix(command: string)
    ensures HasSuffix(command, ".response") <==> exists x :: command == x + ".response"
  {
    if HasSuffix(command, ".response") {
      var x := command[..|command| - |".response"|];
      assert command == x + ".response";
    }
  }

  /** The number a decimal text stands for. */
  function ValueOf(text: string): int {
    if text == "" then 0 else 10 * ValueOf(text[..|text| - 1]) + (text[|text| - 1] as int - '0' as int)
  }
}
