/**
 * Log records as the callback hands them to its logger: a severity, a message
 * and a flat tag map whose values are strings or integers.
 */
module Records {

  /** The Python logging levels the callback uses (logging.WARN is logging.WARNING). */
  datatype Level = Debug | Info | Warning | Error

  /** The numeric value Python's logging module gives each level. */
  function Severity(l: Level): nat
  {
    match l
    case Debug => 10
    case Info => 20
    case Warning => 30
    case Error => 40
  }

  /** A logger set to `threshold` passes a record of level `l`. */
  predicate Passes(l: Level, threshold: Level)
  {
    Severity(l) >= Severity(threshold)
  }

  /**
   * The logger level chosen from the engine's verbosity: 0 keeps warnings
   * and errors, 1 adds informational records, anything else keeps everything.
   */
  function ThresholdFor(verbosity: int): (t: Level)
    ensures Passes(Warning, t) && Passes(Error, t)
    ensures Passes(Info, t) <==> verbosity != 0
    ensures Passes(Debug, t) <==> verbosity != 0 && verbosity != 1
  {
    if verbosity == 0 then Warning
    else if verbosity == 1 then Info
    else Debug
  }

  datatype TagVal = Str(s: string) | Int(n: int)

  type Tags = map<string, TagVal>

  datatype Record = Record(level: Level, message: string, tags: Tags)

  /** Python's `base | extra` on dicts. */
  function Merge(base: Tags, extra: Tags): Tags
  {
    base + extra
  }

  /** A merge holds every key of both sides, and the right side wins. */
  lemma MergeRightWins(base: Tags, extra: Tags)
    ensures Merge(base, extra).Keys == base.Keys + extra.Keys
    ensures forall k :: k in extra ==> Merge(base, extra)[k] == extra[k]
    ensures forall k :: k in base && k !in extra ==> Merge(base, extra)[k] == base[k]
  {
  }

  /** An integer-valued dict used as tags. */
  function IntTags(m: map<string, int>): Tags
  {
    map k | k in m :: Int(m[k])
  }
}
