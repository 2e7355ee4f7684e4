/** The two process-wide Prometheus counters, passed explicitly as a value. */
module Metrics {

  datatype Counters = Counters(githubApiCalls: nat, stackoverflowApiCalls: nat) {

    /** One more GitHub API call. */
    function IncGitHub(): Counters {
      this.(githubApiCalls := githubApiCalls + 1)
    }

    /** One more Stack Overflow API call. */
    function IncStackOverflow(): Counters {
      this.(stackoverflowApiCalls := stackoverflowApiCalls + 1)
    }
  }

  /** Both counters start at zero when the process starts. */
  const Initial: Counters := Counters(0, 0)
}
