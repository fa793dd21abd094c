TestResult.DisplayName,TestResult.Outcome,TestResult.Duration,TestResult.ResourceCount,RandomSeed
QueueLaws.Restores (well-formedness),Passed,00:00:00.1150270,33310,3
QueueLaws.SnapshotRestores (well-formedness),Passed,00:00:00.1016037,59236,3
QueueLaws.SnapshotRestores (correctness),Passed,00:00:00.0486066,72614,3
