/** The decision `onCommand` takes for `/rewards` and `/rewards reset <name>`,
    from the command name, its arguments and who sent it. */
module Command {

  /** ASCII lower case of a character; other characters stay as they are. */
  function LowerAscii(c: char): (r: char)
    ensures 'A' <= c <= 'Z' ==> 'a' <= r <= 'z'
    ensures !('A' <= c <= 'Z') ==> r == c
  {
    if 'A' <= c <= 'Z' then (c as int + 32) as char else c
  }

  /** `String.equals(other, ignoreCase = true)`, folding ASCII letters. */
  predicate EqualsIgnoreCase(a: string, b: string) {
    |a| == |b| && forall i :: 0 <= i < |a| ==> LowerAscii(a[i]) == LowerAscii(b[i])
  }

  /** What the command front-end does. */
  datatype Action =
    | IssueToSender            // `/rewards` from a player
    | ResetPlayer(name: string) // `/rewards reset <name>` from an operator
    | RefuseReset              // `/rewards reset <name>` from anyone else
    | NoAction                 // anything else under `/rewards`, or a console `/rewards`

  /** Whether the command was handled (the Boolean `onCommand` returns), and what it does. */
  datatype Decision = Decision(handled: bool, action: Action)

  function Dispatch(command: string, args: seq<string>, isPlayer: bool, isOp: bool): (d: Decision)
    ensures d.handled <==> EqualsIgnoreCase(command, "rewards")
    ensures d.action == IssueToSender <==> d.handled && args == [] && isPlayer
    ensures d.action.ResetPlayer? <==>
              d.handled && |args| == 2 && EqualsIgnoreCase(args[0], "reset") && isOp
    ensures d.action.ResetPlayer? ==> d.action.name == args[1]
    ensures d.action == RefuseReset <==>
              d.handled && |args| == 2 && EqualsIgnoreCase(args[0], "reset") && !isOp
  {
    if !EqualsIgnoreCase(command, "rewards") then Decision(false, NoAction)
    else if args == [] then Decision(true, if isPlayer then IssueToSender else NoAction)
    else if EqualsIgnoreCase(args[0], "reset") && |args| == 2 then
      Decision(true, if isOp then ResetPlayer(args[1]) else RefuseReset)
    else Decision(true, NoAction)
  }

  /** The sub-command is matched regardless of letter case. */
  lemma ResetAnyCase(args: seq<string>, isPlayer: bool, isOp: bool)
    requires |args| == 2 && args[0] in {"reset", "RESET", "Reset"}
    ensures Dispatch("REWARDS", args, isPlayer, isOp).action == if isOp then ResetPlayer(args[1]) else RefuseReset
  {
  }

  /** A reset needs exactly one name after `reset`: with none or two the command does nothing. */
  lemma ResetNeedsOneName(name: string, extra: string, isPlayer: bool, isOp: bool)
    ensures Dispatch("rewards", ["reset"], isPlayer, isOp) == Decision(true, NoAction)
    ensures Dispatch("rewards", ["reset", name, extra], isPlayer, isOp) == Decision(true, NoAction)
  {
  }
}
