/** The EC2 side of the runner action: the launch request that
    `startEc2Instance` builds field by field, and the one-id requests of
    `terminateEc2Instance` and `waitForInstanceRunning`. The EC2 client is not
    modelled; each of its calls is a function from the request to the
    provider's answer, passed in by the caller. */
module Aws {
  import opened Wrappers
  import opened Text
  import opened Config
  import opened UserDataScript

  datatype LaunchTemplateSpecification = LaunchTemplateSpecification(LaunchTemplateName: string)

  datatype IamInstanceProfileSpecification = IamInstanceProfileSpecification(Name: string)

  /** The parameters of `RunInstances`. A field the source never sets is
      `None`, as the property is absent from the JavaScript object. */
  datatype RunInstancesRequest = RunInstancesRequest(
    MinCount: int,
    MaxCount: int,
    UserData: string,
    LaunchTemplate: Option<LaunchTemplateSpecification>,
    ImageId: Option<string>,
    InstanceType: Option<string>,
    SubnetId: Option<string>,
    SecurityGroupIds: Option<seq<string>>,
    IamInstanceProfile: Option<IamInstanceProfileSpecification>,
    TagSpecifications: Option<seq<TagSpecification>>)

  datatype Instance = Instance(InstanceId: string)

  /** What `RunInstances` answers with: the instances it launched. */
  datatype Reservation = Reservation(Instances: seq<Instance>)

  /** An error raised by the EC2 client; it is passed on as it is. */
  datatype AwsError = AwsError(code: string, message: string)

  /** Why starting an instance fails: the client raised an error, which is
      rethrown unchanged, or the answer lists no instance, so reading the
      first one's id throws. */
  datatype StartFailure = ProviderError(error: AwsError) | MissingInstance

  /** The parameters of `TerminateInstances` and of the waiter. */
  datatype InstanceIdsRequest = InstanceIdsRequest(InstanceIds: seq<string>)

  /** The only waiter the action uses. */
  datatype Waiter = InstanceRunning

  /** `p` is the launch request for `cfg` carrying `userData`: one instance,
      the given user data, and each optional field present exactly when its
      configuration value is truthy, holding that value. */
  predicate IsLaunchRequest(cfg: Configuration, userData: string, p: RunInstancesRequest)
  {
    var input := cfg.input;
    p.MinCount == 1 && p.MaxCount == 1 && p.UserData == userData &&
    (p.LaunchTemplate.Some? <==> Truthy(input.ec2LaunchTemplate)) &&
    (p.LaunchTemplate.Some? ==> p.LaunchTemplate.value.LaunchTemplateName == input.ec2LaunchTemplate) &&
    (p.ImageId.Some? <==> Truthy(input.ec2ImageId)) &&
    (p.ImageId.Some? ==> p.ImageId.value == input.ec2ImageId) &&
    (p.InstanceType.Some? <==> Truthy(input.ec2InstanceType)) &&
    (p.InstanceType.Some? ==> p.InstanceType.value == input.ec2InstanceType) &&
    (p.SubnetId.Some? <==> Truthy(input.subnetId)) &&
    (p.SubnetId.Some? ==> p.SubnetId.value == input.subnetId) &&
    (p.SecurityGroupIds.Some? <==> Truthy(input.securityGroupId)) &&
    (p.SecurityGroupIds.Some? ==> p.SecurityGroupIds.value == [input.securityGroupId]) &&
    (p.IamInstanceProfile.Some? <==> Truthy(input.iamRoleName)) &&
    (p.IamInstanceProfile.Some? ==> p.IamInstanceProfile.value.Name == input.iamRoleName) &&
    p.TagSpecifications == cfg.tagSpecifications
  }

  /** `Some(v)` when the guard holds, otherwise absent. */
  function When<T>(present: bool, v: T): (o: Option<T>)
    ensures o.Some? <==> present
    ensures o.Some? ==> o.value == v
  {
    if present then Some(v) else None
  }

  /** The launch request for `cfg` carrying `userData`, written as one
      record. */
  function LaunchRequest(cfg: Configuration, userData: string): RunInstancesRequest
  {
    var input := cfg.input;
    RunInstancesRequest(
      1, 1, userData,
      When(Truthy(input.ec2LaunchTemplate), LaunchTemplateSpecification(input.ec2LaunchTemplate)),
      When(Truthy(input.ec2ImageId), input.ec2ImageId),
      When(Truthy(input.ec2InstanceType), input.ec2InstanceType),
      When(Truthy(input.subnetId), input.subnetId),
      When(Truthy(input.securityGroupId), [input.securityGroupId]),
      When(Truthy(input.iamRoleName), IamInstanceProfileSpecification(input.iamRoleName)),
      cfg.tagSpecifications)
  }

  /** The record meets the field-by-field description, and it is the only
      request that does: nothing else is set. */
  lemma LaunchRequestCharacterized(cfg: Configuration, userData: string, p: RunInstancesRequest)
    ensures IsLaunchRequest(cfg, userData, p) <==> p == LaunchRequest(cfg, userData)
  {
    if IsLaunchRequest(cfg, userData, p) {
      var q := LaunchRequest(cfg, userData);
      assert p.LaunchTemplate == q.LaunchTemplate && p.ImageId == q.ImageId;
      assert p.InstanceType == q.InstanceType && p.SubnetId == q.SubnetId;
      assert p.SecurityGroupIds == q.SecurityGroupIds && p.IamInstanceProfile == q.IamInstanceProfile;
    }
  }

  /** The user data placed in the launch request: the script's lines joined
      with line breaks, then encoded by `base64`. */
  function EncodedUserData(cfg: Configuration, token: string, runnerLabel: string,
                           base64: string -> string): (u: string)
    ensures PlatformOf(cfg.input.ec2BaseOs) == Unsupported ==> u == base64("")
  {
    base64(Join(Script(cfg, token, runnerLabel), '\n'))
  }

  /** Decoding the user data of a launch request with a decoder that inverts
      the encoder, then cutting it at line breaks with `Split`, gives back the
      script's lines, provided no interpolated value holds a line break of its
      own. */
  lemma UserDataRecoverable(cfg: Configuration, token: string, runnerLabel: string,
                            base64: string -> string, decode: string -> string, p: RunInstancesRequest)
    requires forall s :: decode(base64(s)) == s
    requires '\n' !in cfg.input.runnerHomeDir
    requires '\n' !in cfg.githubContext.owner && '\n' !in cfg.githubContext.repo
    requires '\n' !in token && '\n' !in runnerLabel
    requires PlatformOf(cfg.input.ec2BaseOs) != Unsupported
    requires IsLaunchRequest(cfg, EncodedUserData(cfg, token, runnerLabel, base64), p)
    ensures Split(decode(p.UserData), '\n') == Script(cfg, token, runnerLabel)
  {
    var text := Join(Script(cfg, token, runnerLabel), '\n');
    assert decode(base64(text)) == text;
    ScriptLinesRecoverable(cfg, token, runnerLabel);
  }

  /** Starts from the two counts and the user data, then adds each optional
      field under its own guard, one after the other. */
  method BuildLaunchRequest(cfg: Configuration, userData: string) returns (params: RunInstancesRequest)
    ensures params == LaunchRequest(cfg, userData)
    ensures IsLaunchRequest(cfg, userData, params)
  {
    var input := cfg.input;

    params := RunInstancesRequest(1, 1, userData, None, None, None, None, None, None, None);
    if Truthy(input.ec2LaunchTemplate) {
      params := params.(LaunchTemplate := Some(LaunchTemplateSpecification(input.ec2LaunchTemplate)));
    }
    if Truthy(input.ec2ImageId) {
      params := params.(ImageId := Some(input.ec2ImageId));
    }
    if Truthy(input.ec2InstanceType) {
      params := params.(InstanceType := Some(input.ec2InstanceType));
    }
    if Truthy(input.subnetId) {
      params := params.(SubnetId := Some(input.subnetId));
    }
    if Truthy(input.securityGroupId) {
      params := params.(SecurityGroupIds := Some([input.securityGroupId]));
    }
    if Truthy(input.iamRoleName) {
      params := params.(IamInstanceProfile := Some(IamInstanceProfileSpecification(input.iamRoleName)));
    }
    if cfg.tagSpecifications.Some? {
      params := params.(TagSpecifications := cfg.tagSpecifications);
    }
    LaunchRequestCharacterized(cfg, userData, params);
  }

  /** Builds the user data, then the launch request, sends it once and
      returns the id of the first instance launched. The request passed to
      `runInstances` is `LaunchRequest` over the encoded script. */
  method StartEc2Instance(cfg: Configuration, runnerLabel: string, githubRegistrationToken: string,
                          base64: string -> string,
                          runInstances: RunInstancesRequest -> Result<Reservation, AwsError>)
    returns (r: Result<string, StartFailure>)
    ensures var answer := runInstances(LaunchRequest(cfg, EncodedUserData(cfg, githubRegistrationToken, runnerLabel, base64)));
      match answer
      case Failure(e) => r == Failure(ProviderError(e))
      case Success(reservation) =>
        if |reservation.Instances| > 0 then r == Success(reservation.Instances[0].InstanceId)
        else r == Failure(MissingInstance)
  {
    var userData := BuildUserDataScript(cfg, githubRegistrationToken, runnerLabel);
    var encoded := base64(Join(userData, '\n'));
    assert encoded == EncodedUserData(cfg, githubRegistrationToken, runnerLabel, base64);
    var params := BuildLaunchRequest(cfg, encoded);

    var result := runInstances(params);
    match result
    case Failure(e) =>
      r := Failure(ProviderError(e));
    case Success(reservation) =>
      if |reservation.Instances| == 0 {
        r := Failure(MissingInstance);
      } else {
        r := Success(reservation.Instances[0].InstanceId);
      }
  }

  /** Asks EC2 to terminate the instance named in the configuration, with
      that one id as `InstanceIds`; an error from the client is passed on
      unchanged. */
  method TerminateEc2Instance(cfg: Configuration,
                              terminateInstances: InstanceIdsRequest -> Result<(), AwsError>)
    returns (r: Result<(), AwsError>)
    ensures r == terminateInstances(InstanceIdsRequest([cfg.input.ec2InstanceId]))
  {
    var params := InstanceIdsRequest([cfg.input.ec2InstanceId]);
    r := terminateInstances(params);
  }

  /** Waits until the given instance is running, with that one id as
      `InstanceIds`; an error from the waiter is passed on unchanged. */
  method WaitForInstanceRunning(ec2InstanceId: string,
                                waitFor: (Waiter, InstanceIdsRequest) -> Result<(), AwsError>)
    returns (r: Result<(), AwsError>)
    ensures r == waitFor(InstanceRunning, InstanceIdsRequest([ec2InstanceId]))
  {
    var params := InstanceIdsRequest([ec2InstanceId]);
    r := waitFor(InstanceRunning, params);
  }
}
