/** The records the cloud-to-cloud connector keeps about linked clouds, linked accounts and subscriptions. */
module Records {

  datatype Option<+T> = None | Some(value: T)

  // Which subscription events a linked cloud supports.
  datatype Events = Events(devices: seq<string>, device: seq<string>, resource: seq<string>, staticDeviceEvents: bool)

  datatype OAuth = OAuth(clientID: string, clientSecret: string, authURL: string, tokenURL: string)

  datatype LinkedCloud = LinkedCloud(id: string, name: string, oauth: OAuth, supportedEvents: Events, endpointURL: string)

  datatype Token = Token(accessToken: string, refreshToken: string)

  datatype LinkedAccount = LinkedAccount(id: string, linkedCloudID: string, userID: string, origin: Token, target: Token)

  const TYPE_DEVICES := "devices"
  const TYPE_DEVICE := "device"
  const TYPE_RESOURCE := "resource"

  datatype Subscription = Subscription(
    id: string,
    typ: string,
    linkedAccountID: string,
    linkedCloudID: string,
    deviceID: string,
    href: string,
    signingSecret: string,
    correlationID: string)

  datatype SubscriptionData = SubscriptionData(linkedAccount: LinkedAccount, linkedCloud: LinkedCloud, subscription: Subscription)

  // Go's zero values, returned beside an error or a false flag.
  const NO_SUBSCRIPTION := Subscription("", "", "", "", "", "", "", "")
  const NO_CLOUD := LinkedCloud("", "", OAuth("", "", "", ""), Events([], [], [], false), "")
  const NO_ACCOUNT := LinkedAccount("", "", "", Token("", ""), Token("", ""))
  const NO_DATA := SubscriptionData(NO_ACCOUNT, NO_CLOUD, NO_SUBSCRIPTION)

  datatype TaskType = PullDevice | SubscribeToDevices | SubscribeToDevice | SubscribeToResource

  datatype Task = Task(taskType: TaskType, linkedCloud: LinkedCloud, linkedAccount: LinkedAccount, deviceID: string, href: string)

  ghost predicate NoDuplicates<T>(s: seq<T>) {
    forall i, j :: 0 <= i < j < |s| ==> s[i] != s[j]
  }

  lemma AppendNoDuplicates<T>(a: seq<T>, b: seq<T>)
    requires NoDuplicates(a) && NoDuplicates(b) && forall x :: x in a ==> x !in b
    ensures NoDuplicates(a + b)
  {
    forall i, j | 0 <= i < j < |a + b| ensures (a + b)[i] != (a + b)[j] {
      if i < |a| <= j {
        assert a[i] !in b;
      }
    }
  }
}
