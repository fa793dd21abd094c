TestResult.DisplayName,TestResult.Outcome,TestResult.Duration,TestResult.ResourceCount,RandomSeed
QueueLaws.Restores (well-formedness),Passed,00:00:00.1069724,33308,2
QueueLaws.SnapshotRestores (well-formedness),Passed,00:00:00.0889233,60495,2
QueueLaws.SnapshotRestores (correctness),Passed,00:00:00.0452521,72637,2
