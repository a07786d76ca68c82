/** Event severities (`event_level`) and why re-reading a saved event does not change its level. */
module Levels {
  datatype Level = Debug | Info | Warning | Error {
    function Rank(): nat { match this case Debug => 0 case Info => 1 case Warning => 2 case Error => 3 }

    function Or(other: Level): Level { if other.Rank() > Rank() then other else this }
  }

  /** The fields of an event that bear on its level. */
  datatype Detail = Detail(rateLimitCode: bool, status: int, broke: bool, tokenFailed: bool, tokenStillValid: bool)

  const PLAIN := Detail(false, 0, false, false, false)

  function Base(kind: string, level: Level): Level {
    if kind == "request" then Debug
    else if kind in ["route_refresh", "boot", "response", "capacity", "foreign", "held", "pin", "inherited", "image_tool", "token"] then Info
    else if kind in ["throttle", "demote", "failover", "stripped", "unpinned"] then Warning
    else if kind in ["timeout", "exhausted", "upstream_error"] then Error
    else level
  }

  function EventLevel(kind: string, level: Level, d: Detail): Level {
    if kind == "request" && level.Rank() < Warning.Rank() then Debug
    else if kind == "upstream_error" && d.rateLimitCode then Warning
    else
      var base :=
        if kind == "response" && (d.broke || d.status >= 500) then Error
        else if kind == "response" && d.status >= 400 then Warning
        else if kind == "token" && d.tokenFailed then if d.tokenStillValid then Warning else Error
        else Base(kind, level);
      base.Or(level)
  }

  /** Normalising an already normal level is the identity, whatever the kind and fields. */
  lemma LevelIdempotent(kind: string, level: Level, d: Detail)
    ensures EventLevel(kind, EventLevel(kind, level, d), d) == EventLevel(kind, level, d)
  {
  }

  /**
   What a level promises.  A rate limit reported upstream is a warning and nothing more; a routine
   request stays in the background; otherwise an event is never less severe than it was said to be.
   (`SevereMeans` and `WarningMeans`: a timeout, an exhausted request or an upstream error is an
   error, as is a response that broke or failed with a 5xx and a token that is gone; a throttle or
   demotion, a 4xx, or a token about to go, is a warning at least.)
   */
  lemma LevelMeans(kind: string, level: Level, d: Detail)
    ensures kind == "upstream_error" && d.rateLimitCode ==> EventLevel(kind, level, d) == Warning
    ensures kind == "request" && level in {Debug, Info} ==> EventLevel(kind, level, d) == Debug
    ensures !(kind == "request" && level in {Debug, Info}) && !(kind == "upstream_error" && d.rateLimitCode) ==>
              EventLevel(kind, level, d).Rank() >= level.Rank()
    ensures kind in {"capacity", "foreign", "boot", "route_refresh"} && level in {Debug, Info} ==> EventLevel(kind, level, d) == Info
  {
  }

  lemma SevereMeans(kind: string, level: Level, d: Detail)
    ensures (kind == "upstream_error" && !d.rateLimitCode) || kind in {"timeout", "exhausted"} ==> EventLevel(kind, level, d) == Error
    ensures kind == "response" && (d.broke || d.status >= 500) ==> EventLevel(kind, level, d) == Error
    ensures kind == "token" && d.tokenFailed && !d.tokenStillValid ==> EventLevel(kind, level, d) == Error
  {
  }

  lemma WarningMeans(kind: string, level: Level, d: Detail)
    ensures kind == "response" && d.status >= 400 ==> EventLevel(kind, level, d) in {Warning, Error}
    ensures kind in {"throttle", "demote", "failover"} || (kind == "token" && d.tokenFailed) ==> EventLevel(kind, level, d) in {Warning, Error}
  {
  }
}
