/** `init_shell`: the hook text printed for each shell dialect. */
module Hooks {

  const BashHook := "trap 'aishell \"$BASH_COMMAND\" \"$?\"' ERR"
  const FishHook :=
    "function fish_postexec --on-event fish_postexec; if test $status -ne 0; aishell \"$argv\"; end; end"
  const NotSupported := "Shell not supported"

  /** What a call writes to standard output and to standard error. */
  datatype Output = Output(stdout: string, stderr: string)

  /** The dialects that have a hook. */
  predicate Supported(shell: string)
  {
    shell == "bash" || shell == "zsh" || shell == "fish"
  }

  /** `init_shell(shell)`: a supported dialect gets its hook line on standard
      output and nothing on standard error; any other gets nothing on standard
      output and the not-supported line on standard error. */
  function InitShell(shell: string): (o: Output)
    ensures Supported(shell) <==> o.stdout != ""
    ensures Supported(shell) <==> o.stderr == ""
    ensures !Supported(shell) ==> o.stderr == NotSupported + "\n"
    ensures shell == "fish" ==> o.stdout == FishHook + "\n"
  {
    match shell
    case "bash" => Output(BashHook + "\n", "")
    case "zsh" => Output(BashHook + "\n", "")
    case "fish" => Output(FishHook + "\n", "")
    case _ => Output("", NotSupported + "\n")
  }

  /** bash and zsh are given the same trap, which differs from the fish hook. */
  lemma BashZshShareHook()
    ensures InitShell("bash") == InitShell("zsh") == Output(BashHook + "\n", "")
    ensures InitShell("fish") != InitShell("bash")
  {
  }
}
