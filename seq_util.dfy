/** Two views of a non-empty sequence used by the trace definitions, which
    grow their traces at the end, as the loops they describe do. */
module SeqUtil {

  function Front<T>(s: seq<T>): seq<T>
    requires s != []
  {
    s[..|s| - 1]
  }

  function Last<T>(s: seq<T>): T
    requires s != []
  {
    s[|s| - 1]
  }
}
