TestResult.DisplayName,TestResult.Outcome,TestResult.Duration,TestResult.ResourceCount,RandomSeed
QueueLaws.Restores (well-formedness),Passed,00:00:00.1604102,33308,1
QueueLaws.SnapshotRestores (well-formedness),Passed,00:00:00.1387778,59242,1
QueueLaws.SnapshotRestores (correctness),Passed,00:00:00.0822831,72599,1
