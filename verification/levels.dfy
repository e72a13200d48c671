/** npm's logging levels, which winston uses by default, and the rule by
    which a transport with a threshold level receives a message. */
module Levels {

  datatype Level = Error | Warn | Info | Verbose | Debug | Silly

  /** npm's numeric priorities: error 0, warn 1, info 2, verbose 3,
      debug 4, silly 5.  A lower number is more severe. */
  function Rank(l: Level): (r: nat)
    ensures r <= 5
  {
    match l
    case Error => 0
    case Warn => 1
    case Info => 2
    case Verbose => 3
    case Debug => 4
    case Silly => 5
  }

  /** The level's name, as passed to a transport's `log` and to `colorize`. */
  function Name(l: Level): string {
    match l
    case Error => "error"
    case Warn => "warn"
    case Info => "info"
    case Verbose => "verbose"
    case Debug => "debug"
    case Silly => "silly"
  }

  /** A transport whose threshold is `threshold` receives a message logged
      at `level`: the message is at least as severe as the threshold. */
  predicate Delivers(threshold: Level, level: Level) {
    Rank(level) <= Rank(threshold)
  }

  /** Different levels have different ranks and different names. */
  lemma RankAndNameInjective(a: Level, b: Level)
    requires a != b
    ensures Rank(a) != Rank(b)
    ensures Name(a) != Name(b)
  {
  }

  /** Delivery is a total order on thresholds: every transport receives
      messages at its own level, a transport with a more verbose threshold
      receives everything a stricter one receives, and of two levels one
      always reaches the other's threshold. */
  lemma DeliveryOrder(a: Level, b: Level, c: Level)
    ensures Delivers(a, a)
    ensures Delivers(a, b) && Delivers(b, a) ==> a == b
    ensures Delivers(a, b) && Delivers(b, c) ==> Delivers(a, c)
    ensures Delivers(a, b) || Delivers(b, a)
  {
  }

  /** The documented example: with threshold `info`, exactly error, warn
      and info messages are written. */
  lemma InfoThreshold(l: Level)
    ensures Delivers(Info, l) <==> l == Error || l == Warn || l == Info
  {
  }

  /** An error reaches every transport; a debug message does not reach a
      transport whose threshold is error. */
  lemma ErrorReachesAll(threshold: Level)
    ensures Delivers(threshold, Error)
    ensures !Delivers(Error, Debug)
  {
  }
}
