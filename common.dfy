/** lib/config-builder/common.js: the SNS topic name shared by the topic
    block of event-builder and the topic trigger of trigger-builder. */
module Common {
  import opened Strings
  import opened ChangeCase

  /** `[paramCase(service), paramCase(stage), topicName].join('-')`: the two
      case-changed components, then the topic name unchanged. */
  function GenerateTopicName(cc: CaseFns, serviceName: string, stageName: string, topicName: string): (r: string)
    ensures r == cc.param(serviceName) + "-" + cc.param(stageName) + "-" + topicName
    ensures EndsWith(r, "-" + topicName)
  {
    var parts := [cc.param(serviceName), cc.param(stageName), topicName];
    assert parts[1..][1..] == [topicName];
    assert Join(parts[1..], "-") == cc.param(stageName) + "-" + topicName;
    var r := Join(parts, "-");
    var head := cc.param(serviceName) + "-" + cc.param(stageName);
    assert r == head + ("-" + topicName);
    assert r[|head|..] == "-" + topicName;
    r
  }
}
