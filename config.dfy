/** The values the launcher reads from its configuration module. That module
    is not part of this model: its fields become an explicit record, passed to
    every operation instead of being read from a module-wide global. A string
    input that is absent is the empty string, so "truthy" is "non-empty". */
module Config {
  import opened Wrappers

  /** The action's inputs (`config.input`). */
  datatype Input = Input(
    ec2BaseOs: string,
    runnerHomeDir: string,
    ec2LaunchTemplate: string,
    ec2ImageId: string,
    ec2InstanceType: string,
    subnetId: string,
    securityGroupId: string,
    iamRoleName: string,
    ec2InstanceId: string)

  /** The repository the runner registers with (`config.githubContext`). */
  datatype GithubContext = GithubContext(owner: string, repo: string)

  /** One resource tag, as the compute API expects it. */
  datatype Tag = Tag(Key: string, Value: string)

  /** One entry of `TagSpecifications`: the tags to put on one kind of resource. */
  datatype TagSpecification = TagSpecification(ResourceType: string, Tags: seq<Tag>)

  /** The whole configuration. `tagSpecifications` is a list or nothing; in
      JavaScript every list, even an empty one, is truthy. */
  datatype Configuration = Configuration(
    input: Input,
    githubContext: GithubContext,
    tagSpecifications: Option<seq<TagSpecification>>)

  /** JavaScript truthiness of a string input. */
  predicate Truthy(s: string)
  {
    s != ""
  }
}
